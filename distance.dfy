/**
 * The distance package: input validation shared by every metric, and the metrics
 * Manhattan, Chebyshev, SumOfSquares, MeanSquare, Euclidean and RootMeanSquare.
 * Each metric is an accumulator loop specified by a recursive function over the
 * prefix it has consumed; math.Sqrt is a parameter.
 */
module Distance {
  import opened Wrappers
  import opened Errors

  /** A Go []float64 that may be nil (None). */
  type Slice = Option<seq<real>>

  /** distance.Function, as the rest of the core injects it (callers never pass nil). */
  type Function = (seq<real>, seq<real>) -> Result<real, Error>

  /** validateInputs: nil first, then mismatched lengths, then zero length. */
  function ValidateInputs(p: Slice, q: Slice): (err: Option<Error>)
    ensures err == Some(NilVector) <==> p.None? || q.None?
    ensures err == Some(MismatchedVectorLengths) <==> p.Some? && q.Some? && |p.value| != |q.value|
    ensures err == Some(ZeroLengthVector) <==> p.Some? && q.Some? && |p.value| == |q.value| == 0
    ensures err.None? <==> p.Some? && q.Some? && |p.value| == |q.value| > 0
  {
    if p.None? || q.None? then Some(NilVector)
    else if |p.value| != |q.value| then Some(MismatchedVectorLengths)
    else if |p.value| == 0 || |q.value| == 0 then Some(ZeroLengthVector)
    else None
  }

  /** The three error values are checked in a fixed order: a nil vector wins over everything. */
  lemma ValidationPrecedence(v: seq<real>)
    ensures ValidateInputs(None, Some([])) == Some(NilVector)
    ensures ValidateInputs(Some(v), None) == Some(NilVector)
    ensures |v| > 0 ==> ValidateInputs(Some([]), Some(v)) == Some(MismatchedVectorLengths)
    ensures ValidateInputs(Some([]), Some([])) == Some(ZeroLengthVector)
  {
  }

  function Abs(x: real): (r: real)
    ensures r >= 0.0 && (r == x || r == -x)
  {
    if x < 0.0 then -x else x
  }

  // ---------------------------------------------------------------- specifications

  /** Σ |p_i − q_i| over the whole of p and q. */
  function SumAbsDiff(p: seq<real>, q: seq<real>): (d: real)
    requires |p| == |q|
    ensures d >= 0.0
    decreases |p|
  {
    if |p| == 0 then 0.0 else SumAbsDiff(p[..|p| - 1], q[..|q| - 1]) + Abs(p[|p| - 1] - q[|q| - 1])
  }

  /** The running maximum of |p_i − q_i|, folded from 0. */
  function MaxAbsDiff(p: seq<real>, q: seq<real>): (d: real)
    requires |p| == |q|
    ensures d >= 0.0
    ensures forall i :: 0 <= i < |p| ==> Abs(p[i] - q[i]) <= d
    ensures |p| == 0 ==> d == 0.0
    ensures |p| > 0 ==> exists i :: 0 <= i < |p| && d == Abs(p[i] - q[i])
    decreases |p|
  {
    if |p| == 0 then 0.0
    else
      var m := MaxAbsDiff(p[..|p| - 1], q[..|q| - 1]);
      var n := Abs(p[|p| - 1] - q[|q| - 1]);
      assert forall i :: 0 <= i < |p| - 1 ==> p[..|p| - 1][i] == p[i] && q[..|q| - 1][i] == q[i];
      if n > m then n else m
  }

  /** Σ (q_i − p_i)². */
  function SumSquares(p: seq<real>, q: seq<real>): (r: real)
    requires |p| == |q|
    ensures r >= 0.0
    decreases |p|
  {
    if |p| == 0 then 0.0
    else
      var x := q[|q| - 1] - p[|p| - 1];
      SumSquares(p[..|p| - 1], q[..|q| - 1]) + x * x
  }

  /** v with c added to every component. */
  function Offset(v: seq<real>, c: real): (w: seq<real>)
    ensures |w| == |v| && forall i :: 0 <= i < |v| ==> w[i] == v[i] + c
  {
    seq(|v|, i requires 0 <= i < |v| => v[i] + c)
  }

  /** sqrt is a square root on the non-negative reals. */
  ghost predicate IsSqrt(sqrt: real -> real)
  {
    forall x :: 0.0 <= x ==> 0.0 <= sqrt(x) && sqrt(x) * sqrt(x) == x
  }

  // ---------------------------------------------------------------- the metrics

  /** Manhattan: Σ |p_i − q_i|. */
  method Manhattan(p: Slice, q: Slice) returns (r: Result<real, Error>)
    ensures ValidateInputs(p, q).Some? ==> r == Failure(ValidateInputs(p, q).value)
    ensures ValidateInputs(p, q).None? ==> r == Success(SumAbsDiff(p.value, q.value))
  {
    var err := ValidateInputs(p, q);
    if err.Some? {
      return Failure(err.value);
    }
    var ps, qs := p.value, q.value;
    var d := 0.0;
    for i := 0 to |ps|
      invariant d == SumAbsDiff(ps[..i], qs[..i])
    {
      assert ps[..i + 1][..i] == ps[..i] && qs[..i + 1][..i] == qs[..i];
      d := d + Abs(ps[i] - qs[i]);
    }
    assert ps[..|ps|] == ps && qs[..|qs|] == qs;
    return Success(d);
  }

  /** Chebyshev: the largest |p_i − q_i|, folded from 0 with a strict comparison. */
  method Chebyshev(p: Slice, q: Slice) returns (r: Result<real, Error>)
    ensures ValidateInputs(p, q).Some? ==> r == Failure(ValidateInputs(p, q).value)
    ensures ValidateInputs(p, q).None? ==> r == Success(MaxAbsDiff(p.value, q.value))
  {
    var err := ValidateInputs(p, q);
    if err.Some? {
      return Failure(err.value);
    }
    var ps, qs := p.value, q.value;
    var d := 0.0;
    for i := 0 to |ps|
      invariant d == MaxAbsDiff(ps[..i], qs[..i])
    {
      assert ps[..i + 1][..i] == ps[..i] && qs[..i + 1][..i] == qs[..i];
      var n := Abs(ps[i] - qs[i]);
      if n > d {
        d := n;
      }
    }
    assert ps[..|ps|] == ps && qs[..|qs|] == qs;
    return Success(d);
  }

  /** SumOfSquares: Σ (q_i − p_i)². */
  method SumOfSquares(p: Slice, q: Slice) returns (r: Result<real, Error>)
    ensures ValidateInputs(p, q).Some? ==> r == Failure(ValidateInputs(p, q).value)
    ensures ValidateInputs(p, q).None? ==> r == Success(SumSquares(p.value, q.value))
  {
    var err := ValidateInputs(p, q);
    if err.Some? {
      return Failure(err.value);
    }
    var ps, qs := p.value, q.value;
    var s := SquareSum(ps, qs);
    return Success(s);
  }

  /** The loop adding up the squared differences that SumOfSquares, MeanSquare and RootMeanSquare share. */
  method SquareSum(ps: seq<real>, qs: seq<real>) returns (s: real)
    requires |ps| == |qs|
    ensures s == SumSquares(ps, qs)
  {
    s := 0.0;
    for i := 0 to |ps|
      invariant s == SumSquares(ps[..i], qs[..i])
    {
      assert ps[..i + 1][..i] == ps[..i] && qs[..i + 1][..i] == qs[..i];
      var qq := qs[i];
      s := s + (qq - ps[i]) * (qq - ps[i]);
    }
    assert ps[..|ps|] == ps && qs[..|qs|] == qs;
  }

  /** MeanSquare: (1/n) · Σ (q_i − p_i)². */
  method MeanSquare(p: Slice, q: Slice) returns (r: Result<real, Error>)
    ensures ValidateInputs(p, q).Some? ==> r == Failure(ValidateInputs(p, q).value)
    ensures ValidateInputs(p, q).None? ==> r == Success(SumSquares(p.value, q.value) / |p.value| as real)
  {
    var err := ValidateInputs(p, q);
    if err.Some? {
      return Failure(err.value);
    }
    var ps, qs := p.value, q.value;
    var s := SquareSum(ps, qs);
    var n := |ps| as real;
    ScaleIsDivision(s, n);
    return Success((1.0 / n) * s);
  }

  /** Euclidean: sqrt(Σ (p_i − q_i)²). */
  method Euclidean(p: Slice, q: Slice, sqrt: real -> real) returns (r: Result<real, Error>)
    ensures ValidateInputs(p, q).Some? ==> r == Failure(ValidateInputs(p, q).value)
    ensures ValidateInputs(p, q).None? ==> r == Success(sqrt(SumSquares(p.value, q.value)))
  {
    var err := ValidateInputs(p, q);
    if err.Some? {
      return Failure(err.value);
    }
    var ps, qs := p.value, q.value;
    var d := 0.0;
    for i := 0 to |ps|
      invariant d == SumSquares(ps[..i], qs[..i])
    {
      assert ps[..i + 1][..i] == ps[..i] && qs[..i + 1][..i] == qs[..i];
      assert (ps[i] - qs[i]) * (ps[i] - qs[i]) == (qs[i] - ps[i]) * (qs[i] - ps[i]);
      d := d + (ps[i] - qs[i]) * (ps[i] - qs[i]);
    }
    assert ps[..|ps|] == ps && qs[..|qs|] == qs;
    return Success(sqrt(d));
  }

  /** RootMeanSquare: sqrt((1/n) · Σ (q_i − p_i)²). */
  method RootMeanSquare(p: Slice, q: Slice, sqrt: real -> real) returns (r: Result<real, Error>)
    ensures ValidateInputs(p, q).Some? ==> r == Failure(ValidateInputs(p, q).value)
    ensures ValidateInputs(p, q).None? ==>
              r == Success(sqrt(SumSquares(p.value, q.value) / |p.value| as real))
  {
    var err := ValidateInputs(p, q);
    if err.Some? {
      return Failure(err.value);
    }
    var ps, qs := p.value, q.value;
    var s := SquareSum(ps, qs);
    var n := |ps| as real;
    ScaleIsDivision(s, n);
    return Success(sqrt((1.0 / n) * s));
  }

  // ---------------------------------------------------------------- properties

  /** Manhattan distance is symmetric. */
  lemma {:induction false} SumAbsDiffSymmetric(p: seq<real>, q: seq<real>)
    requires |p| == |q|
    ensures SumAbsDiff(p, q) == SumAbsDiff(q, p)
    decreases |p|
  {
    if |p| > 0 {
      SumAbsDiffSymmetric(p[..|p| - 1], q[..|q| - 1]);
    }
  }

  /** Manhattan distance is zero exactly for equal vectors. */
  lemma {:induction false} SumAbsDiffZeroIffEqual(p: seq<real>, q: seq<real>)
    requires |p| == |q|
    ensures SumAbsDiff(p, q) == 0.0 <==> p == q
    decreases |p|
  {
    if |p| > 0 {
      var n := |p| - 1;
      SumAbsDiffZeroIffEqual(p[..n], q[..n]);
      assert p == p[..n] + [p[n]] && q == q[..n] + [q[n]];
    }
  }

  /** Chebyshev distance is symmetric. */
  lemma {:induction false} MaxAbsDiffSymmetric(p: seq<real>, q: seq<real>)
    requires |p| == |q|
    ensures MaxAbsDiff(p, q) == MaxAbsDiff(q, p)
    decreases |p|
  {
    if |p| > 0 {
      MaxAbsDiffSymmetric(p[..|p| - 1], q[..|q| - 1]);
      assert Abs(p[|p| - 1] - q[|q| - 1]) == Abs(q[|q| - 1] - p[|p| - 1]);
    }
  }

  /** The sum of squares is zero exactly for equal vectors. */
  lemma {:induction false} SumSquaresZeroIffEqual(p: seq<real>, q: seq<real>)
    requires |p| == |q|
    ensures SumSquares(p, q) == 0.0 <==> p == q
    decreases |p|
  {
    if |p| > 0 {
      var n := |p| - 1;
      SumSquaresZeroIffEqual(p[..n], q[..n]);
      var x := q[n] - p[n];
      SquareZeroIffZero(x);
      assert SumSquares(p, q) == SumSquares(p[..n], q[..n]) + x * x;
      assert p == p[..n] + [p[n]] && q == q[..n] + [q[n]];
      if p == q {
        assert p[..n] == q[..n] && x == 0.0;
      }
    }
  }

  /** Shifting every one of the n coordinates by c gives a sum of squares of n·c². */
  lemma {:induction false} SumSquaresOfShift(p: seq<real>, c: real)
    ensures SumSquares(p, Offset(p, c)) == |p| as real * (c * c)
    decreases |p|
  {
    if |p| > 0 {
      var n := |p| - 1;
      assert Offset(p, c)[..n] == Offset(p[..n], c);
      SumSquaresOfShift(p[..n], c);
      assert Offset(p, c)[n] - p[n] == c;
    }
  }

  /** Adding the same offset to both vectors leaves the sum of squares unchanged. */
  lemma {:induction false} SumSquaresOffsetInvariant(p: seq<real>, q: seq<real>, c: real)
    requires |p| == |q|
    ensures SumSquares(Offset(p, c), Offset(q, c)) == SumSquares(p, q)
    decreases |p|
  {
    if |p| > 0 {
      var n := |p| - 1;
      assert Offset(p, c)[..n] == Offset(p[..n], c);
      assert Offset(q, c)[..n] == Offset(q[..n], c);
      SumSquaresOffsetInvariant(p[..n], q[..n], c);
      assert Offset(q, c)[n] - Offset(p, c)[n] == q[n] - p[n];
    }
  }

  /** The mean square of a uniform shift by c is c². */
  lemma MeanSquareOfShift(p: seq<real>, c: real)
    requires |p| > 0
    ensures SumSquares(p, Offset(p, c)) / |p| as real == c * c
  {
    SumSquaresOfShift(p, c);
    QuotientOfShift(p, c, SumSquares(p, Offset(p, c)));
  }

  lemma QuotientOfShift(p: seq<real>, c: real, s: real)
    requires |p| > 0
    requires s == |p| as real * (c * c)
    ensures s / |p| as real == c * c
  {
    ProductDividedBack(s, |p| as real, c * c);
  }

  /** The square root of c² is |c|. */
  lemma SqrtOfSquare(sqrt: real -> real, c: real)
    requires IsSqrt(sqrt)
    ensures sqrt(c * c) == Abs(c)
  {
    var s, a := sqrt(c * c), Abs(c);
    assert 0.0 <= c * c;
    assert s >= 0.0 && s * s == c * c;
    assert a * a == c * c;
    assert (s - a) * (s + a) == s * s - a * a;
    ProductZero(s - a, s + a);
  }

  // ---------------------------------------------------------------- arithmetic helpers

  lemma ScaleIsDivision(s: real, n: real)
    requires n != 0.0
    ensures (1.0 / n) * s == s / n
  {
  }

  lemma ProductDividedBack(s: real, n: real, k: real)
    requires n != 0.0 && s == n * k
    ensures s / n == k
  {
  }

  lemma SquareZeroIffZero(x: real)
    ensures x * x == 0.0 <==> x == 0.0
  {
    if x * x == 0.0 {
      ProductZero(x, x);
    }
  }

  lemma ProductZero(x: real, y: real)
    requires x * y == 0.0
    ensures x == 0.0 || y == 0.0
  {
    if x != 0.0 {
      assert y == (x * y) / x;
    }
  }

  /** Euclidean distance is unchanged when both vectors are moved by the same offset. */
  lemma EuclideanOffsetInvariant(p: seq<real>, q: seq<real>, c: real, sqrt: real -> real)
    requires |p| == |q|
    ensures sqrt(SumSquares(Offset(p, c), Offset(q, c))) == sqrt(SumSquares(p, q))
  {
    SumSquaresOffsetInvariant(p, q, c);
  }

  /** Euclidean and root-mean-square distances of a vector from itself are zero. */
  lemma SqrtDistancesOfEqualVectors(p: seq<real>, sqrt: real -> real)
    requires IsSqrt(sqrt) && |p| > 0
    ensures sqrt(SumSquares(p, p)) == 0.0
    ensures sqrt(SumSquares(p, p) / |p| as real) == 0.0
  {
    SumSquaresZeroIffEqual(p, p);
    SqrtOfSquare(sqrt, 0.0);
  }

  /** The root mean square of a uniform shift by c is |c|. */
  lemma RootMeanSquareOfShift(p: seq<real>, c: real, sqrt: real -> real)
    requires IsSqrt(sqrt) && |p| > 0
    ensures sqrt(SumSquares(p, Offset(p, c)) / |p| as real) == Abs(c)
  {
    MeanSquareOfShift(p, c);
    SqrtOfSquare(sqrt, c);
  }
}
