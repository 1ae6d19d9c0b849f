/** calculus/tangentslope.go: secant approximations of a tangent, as slope-intercept lines. */
module Calculus {

  /** calculus.Line: y = M·x + B. */
  datatype Line = Line(M: real, B: real)
  {
    /** Line.Y: the point (x, y) lies on the line. */
    function Y(x: real): (y: real)
      ensures y - B == M * x
    {
      M * x + B
    }

    /** Line.X: solves y = M·x + B for x; Go divides by M, so M must be non-zero. */
    function X(y: real): (x: real)
      requires M != 0.0
      ensures M * x + B == y
    {
      (y - B) / M
    }
  }

  /** TangentSlope: the line through (x - d, f(x - d)) and (x, f(x)); the run is d, so d != 0. */
  function TangentSlope(x: real, d: real, f: real -> real): (l: Line)
    requires d != 0.0
    ensures l.M * d == f(x) - f(x - d)
    ensures l.Y(x - d) == f(x - d)
    ensures l.Y(x) == f(x)
  {
    var xi, xii := x - d, x;
    var yi, yii := f(xi), f(xii);
    var m := (yii - yi) / (xii - xi);
    Line(m, yi - m * xi)
  }

  /** With a non-zero slope, X and Y are inverse to each other. */
  lemma XInvertsY(l: Line, x: real, y: real)
    requires l.M != 0.0
    ensures l.X(l.Y(x)) == x
    ensures l.Y(l.X(y)) == y
  {
    assert l.Y(x) - l.B == l.M * x;
    assert l.M * l.X(y) == y - l.B;
  }
}
