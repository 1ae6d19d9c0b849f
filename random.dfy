/**
 * random/random.go, and the one function of math/rand that clustering/kmeans.go uses.
 * The generator is a stream of unit draws in [0, 1) supplied from outside; the state is
 * how many draws have been taken.
 */
module RandomSource {

  /** A source of pseudo-random numbers: draw k is unit(k). */
  class Source {
    const unit: nat -> real
    var drawn: nat

    /** Every draw lies in [0, 1), as rand.Float64 promises. */
    ghost predicate Valid()
    {
      forall k :: 0.0 <= unit(k) < 1.0
    }

    constructor(unit: nat -> real)
      requires forall k :: 0.0 <= unit(k) < 1.0
      ensures Valid() && this.unit == unit && drawn == 0
    {
      this.unit := unit;
      drawn := 0;
    }

    /** random.Float64: a draw scaled to [min, max). */
    method Float64(min: real, max: real) returns (x: real)
      modifies this
      ensures drawn == old(drawn) + 1
      ensures x == Scale(min, max, unit(old(drawn)))
    {
      x := Scale(min, max, unit(drawn));
      drawn := drawn + 1;
    }

    /** random.Float64Vector: size draws in turn. */
    method Float64Vector(min: real, max: real, size: nat) returns (op: seq<real>)
      modifies this
      ensures drawn == old(drawn) + size
      ensures op == Draws(unit, old(drawn), min, max, size)
    {
      op := [];
      for i := 0 to size
        invariant drawn == old(drawn) + i
        invariant op == Draws(unit, old(drawn), min, max, i)
      {
        var x := Float64(min, max);
        op := op + [x];
      }
    }

    /** rand.Intn(n): a draw scaled to an integer in [0, n); Go panics when n <= 0. */
    method Intn(n: nat) returns (k: nat)
      requires n > 0 && Valid()
      modifies this
      ensures drawn == old(drawn) + 1
      ensures k == IntOf(unit(old(drawn)), n)
      ensures k < n
    {
      k := IntOf(unit(drawn), n);
      drawn := drawn + 1;
    }
  }

  /** (max - min) * u + min. */
  function Scale(min: real, max: real, u: real): (x: real)
  {
    (max - min) * u + min
  }

  /** The integer in [0, n) that a unit draw u selects. */
  function IntOf(u: real, n: nat): (k: nat)
    requires 0.0 <= u < 1.0 && n > 0
    ensures k < n
  {
    var x := u * n as real;
    UnitProductBelow(u, n as real);
    assert x.Floor as real <= x < n as real;
    x.Floor
  }

  /** The vector of size draws starting at draw start, each scaled to [min, max). */
  function Draws(unit: nat -> real, start: nat, min: real, max: real, size: nat): (op: seq<real>)
    ensures |op| == size
    ensures forall i :: 0 <= i < size ==> op[i] == Scale(min, max, unit(start + i))
  {
    if size == 0 then [] else Draws(unit, start, min, max, size - 1) + [Scale(min, max, unit(start + size - 1))]
  }

  lemma UnitProductBelow(u: real, n: real)
    requires 0.0 <= u < 1.0 && n > 0.0
    ensures 0.0 <= u * n < n
  {
  }

  /** A unit draw scaled to [min, max] stays in it (the range random_test.go checks). */
  lemma ScaleInRange(min: real, max: real, u: real)
    requires min <= max && 0.0 <= u < 1.0
    ensures min <= Scale(min, max, u) <= max
    ensures min < max ==> Scale(min, max, u) < max
  {
    var w := max - min;
    ProductBounds(w, u);
    assert Scale(min, max, u) == w * u + min;
  }

  lemma ProductBounds(w: real, u: real)
    requires w >= 0.0 && 0.0 <= u < 1.0
    ensures 0.0 <= w * u <= w
    ensures w > 0.0 ==> w * u < w
  {
  }

  /** Every component of a drawn vector lies in [min, max]. */
  lemma DrawsInRange(unit: nat -> real, start: nat, min: real, max: real, size: nat)
    requires min <= max && forall k :: 0.0 <= unit(k) < 1.0
    ensures forall i :: 0 <= i < size ==> min <= Draws(unit, start, min, max, size)[i] <= max
  {
    forall i | 0 <= i < size
      ensures min <= Draws(unit, start, min, max, size)[i] <= max
    {
      ScaleInRange(min, max, unit(start + i));
    }
  }
}
