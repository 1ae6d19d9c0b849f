/** training/randomgreedy.go: random search that keeps the best vector it has scored. */
module RandomGreedySearch {
  import opened Wrappers
  import opened Errors
  import opened Training
  import RandomSource

  /** training.RandomGreedy. */
  class RandomGreedy {
    var current: seq<real>
    /** The best memory and error recorded so far; best is nil (None) until a score beats e. */
    var best: Option<seq<real>>
    var e: real
    var Min: real
    var Max: real
    /** The vectors handed to the evaluator, in order. */
    ghost var evaluated: seq<seq<real>>
    /** The vectors that were scored without error, with their scores. */
    ghost var scored: seq<(seq<real>, real)>
    /** BestError after each Next that succeeded, and the vector that Next returned. */
    ghost var bestErrors: seq<real>
    ghost var proposals: seq<seq<real>>

    /** best and e are what replaying the successful scores gives. */
    ghost predicate Valid()
      reads this
    {
      (best, e) == Replay(scored)
    }

    /** NewRandomGreedy: starts from memory, with no best memory, the MaxFloat64 error and
        the range [-10, 10]. */
    constructor(memory: seq<real>)
      ensures current == memory && best == None && e == MaxFloat64
      ensures Min == -10.0 && Max == 10.0
      ensures evaluated == [] && scored == [] && bestErrors == [] && proposals == []
      ensures Valid()
    {
      Min, Max := -10.0, 10.0;
      current := memory;
      best := None;
      e := MaxFloat64;
      evaluated := [];
      scored := [];
      bestErrors, proposals := [], [];
    }

    /** BestError: MaxFloat64 until something has been scored. */
    function BestError(): real
      reads this
    {
      e
    }

    /** BestMemory: nil until something has been scored. */
    function BestMemory(): Option<seq<real>>
      reads this
    {
      best
    }

    /** The bookkeeping of a successful score: a strictly lower value makes v the best memory. */
    method Record(v: seq<real>, value: real)
      requires Valid()
      modifies this
      ensures Valid()
      ensures scored == old(scored) + [(v, value)]
      ensures value < old(e) ==> best == Some(v) && e == value
      ensures !(value < old(e)) ==> best == old(best) && e == old(e)
      ensures bestErrors == old(bestErrors) + [e]
      ensures current == old(current) && evaluated == old(evaluated) && proposals == old(proposals)
      ensures Min == old(Min) && Max == old(Max)
    {
      ReplayStep(scored, v, value);
      scored := scored + [(v, value)];
      if value < e {
        best := Some(v);
        e := value;
      }
      bestErrors := bestErrors + [e];
    }

    /** The draw of the next current vector, in [Min, Max] and of the same length. */
    method Resample(rng: RandomSource.Source) returns (m: seq<real>)
      requires Valid()
      modifies this, rng
      ensures Valid()
      ensures m == current == RandomSource.Draws(rng.unit, old(rng.drawn), Min, Max, |old(current)|)
      ensures rng.drawn == old(rng.drawn) + |old(current)|
      ensures proposals == old(proposals) + [m]
      ensures best == old(best) && e == old(e) && scored == old(scored) && evaluated == old(evaluated)
      ensures bestErrors == old(bestErrors) && Min == old(Min) && Max == old(Max)
    {
      current := rng.Float64Vector(Min, Max, |current|);
      proposals := proposals + [current];
      m := current;
    }

    /**
     * Next: scores the current vector once.  On an evaluator error nothing changes and the
     * current vector is returned with the error.  Otherwise a strictly better score makes
     * the current vector the best one, and a fresh random vector of the same length in
     * [Min, Max] becomes current and is returned.
     */
    method Next(ev: Evaluator, rng: RandomSource.Source) returns (m: seq<real>, err: Option<Error>)
      requires Valid()
      modifies this, rng
      ensures Valid()
      ensures evaluated == old(evaluated) + [old(current)]
      ensures Min == old(Min) && Max == old(Max)
      ensures old(ev(current)).err.Some? ==>
        && err == old(ev(current)).err && m == old(current)
        && current == old(current) && best == old(best) && e == old(e)
        && rng.drawn == old(rng.drawn) && scored == old(scored)
      ensures old(ev(current)).err.None? ==>
        && scored == old(scored) + [(old(current), old(ev(current)).value)]
        && err.None?
        && (old(ev(current)).value < old(e) ==> best == Some(old(current)) && e == old(ev(current)).value)
        && (!(old(ev(current)).value < old(e)) ==> best == old(best) && e == old(e))
        && current == RandomSource.Draws(rng.unit, old(rng.drawn), Min, Max, |old(current)|)
        && rng.drawn == old(rng.drawn) + |old(current)|
        && m == current
      ensures err.None? ==> bestErrors == old(bestErrors) + [e] && proposals == old(proposals) + [m]
      ensures err.Some? ==> bestErrors == old(bestErrors) && proposals == old(proposals)
      ensures e <= old(e)
      ensures |current| == |old(current)|
    {
      var s := ev(current);
      evaluated := evaluated + [current];
      if s.err.Some? {
        return current, s.err;
      }
      Record(current, s.value);
      m := Resample(rng);
      return m, None;
    }
  }

  /** One more successful score replays as Next's strict-less update. */
  lemma ReplayStep(scored: seq<(seq<real>, real)>, v: seq<real>, value: real)
    ensures Replay(scored + [(v, value)]) ==
      if value < Replay(scored).1 then (Some(v), value) else Replay(scored)
  {
    assert (scored + [(v, value)])[..|scored|] == scored;
  }

  /** After a successful Next, every component of the new vector lies in [Min, Max]. */
  lemma ResampledInRange(unit: nat -> real, start: nat, min: real, max: real, size: nat)
    requires min <= max && forall k :: 0.0 <= unit(k) < 1.0
    ensures var v := RandomSource.Draws(unit, start, min, max, size);
      |v| == size && forall i :: 0 <= i < size ==> min <= v[i] <= max
  {
    RandomSource.DrawsInRange(unit, start, min, max, size);
  }

  /** The best memory and error a run of successful scores leaves behind: the error is the
      least score below MaxFloat64 (MaxFloat64 if none is below it), and the memory is a
      vector that scored it (nil if none did); a later score that is no better leaves both
      alone. */
  function Replay(scored: seq<(seq<real>, real)>): (r: (Option<seq<real>>, real))
    ensures r.1 <= MaxFloat64
    ensures forall i :: 0 <= i < |scored| ==> r.1 <= scored[i].1
    ensures r.0.None? <==> r.1 == MaxFloat64 && forall i :: 0 <= i < |scored| ==> scored[i].1 >= MaxFloat64
    ensures r.0.Some? ==> exists i :: 0 <= i < |scored| && scored[i] == (r.0.value, r.1)
  {
    if scored == [] then (None, MaxFloat64)
    else
      var prev := Replay(scored[..|scored| - 1]);
      var last := scored[|scored| - 1];
      if last.1 < prev.1 then (Some(last.0), last.1) else prev
  }
}
