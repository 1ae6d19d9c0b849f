/**
 * Component-wise vector arithmetic shared by the clustering and RBF packages: the
 * add-into and divide-by loops that clustering/centroid.go,
 * clustering/cluster.go and rbf/network.go each write out.
 */
module VectorOps {

  /** make([]float64, n): n zeros. */
  function Zeros(n: nat): (z: seq<real>)
    ensures |z| == n
    ensures forall j :: 0 <= j < n ==> z[j] == 0.0
  {
    seq(n, _ => 0.0)
  }

  /** Component j of v, or 0 when v is too short to have one. */
  function At(v: seq<real>, j: nat): (x: real)
  {
    if j < |v| then v[j] else 0.0
  }

  /** row with v added into its leading components; Go indexes row[j] for every j < |v|. */
  function Plus(row: seq<real>, v: seq<real>): (r: seq<real>)
    requires |v| <= |row|
    ensures |r| == |row|
    ensures forall j :: 0 <= j < |row| ==> r[j] == row[j] + At(v, j)
  {
    seq(|row|, j requires 0 <= j < |row| => row[j] + At(v, j))
  }

  /** Every component of row divided by n. */
  function Divided(row: seq<real>, n: real): (r: seq<real>)
    requires n != 0.0
    ensures |r| == |row|
    ensures forall j :: 0 <= j < |row| ==> r[j] == row[j] / n
  {
    seq(|row|, j requires 0 <= j < |row| => row[j] / n)
  }

  /** Sum of component j over all rows (rows too short to have one contribute 0). */
  function ColumnSum(rows: seq<seq<real>>, j: nat): (s: real)
  {
    if rows == [] then 0.0 else ColumnSum(rows[..|rows| - 1], j) + At(rows[|rows| - 1], j)
  }

  /** The rows added one after the other into a zero vector of length n. */
  function SumRows(rows: seq<seq<real>>, n: nat): (r: seq<real>)
    requires forall i :: 0 <= i < |rows| ==> |rows[i]| <= n
    ensures |r| == n
  {
    if rows == [] then Zeros(n) else Plus(SumRows(rows[..|rows| - 1], n), rows[|rows| - 1])
  }

  /** Folding the rows with Plus gives, in every component, that component's column sum. */
  lemma {:induction false} SumRowsIsColumnSum(rows: seq<seq<real>>, n: nat)
    requires forall i :: 0 <= i < |rows| ==> |rows[i]| <= n
    ensures forall j :: 0 <= j < n ==> SumRows(rows, n)[j] == ColumnSum(rows, j)
  {
    if rows != [] {
      SumRowsIsColumnSum(rows[..|rows| - 1], n);
    }
  }

  /** The loop adding each component of v into the same component of the row. */
  method AddInto(row: seq<real>, v: seq<real>) returns (op: seq<real>)
    requires |v| <= |row|
    ensures op == Plus(row, v)
  {
    op := row;
    var j := 0;
    while j < |v|
      invariant 0 <= j <= |v|
      invariant |op| == |row|
      invariant forall k :: 0 <= k < |row| ==> op[k] == row[k] + (if k < j then v[k] else 0.0)
    {
      op := op[j := op[j] + v[j]];
      j := j + 1;
    }
  }

  /** The loop setting every component to zero. */
  method Reset(v: seq<real>) returns (op: seq<real>)
    ensures op == Zeros(|v|)
  {
    op := v;
    var j := 0;
    while j < |op|
      invariant 0 <= j <= |op| == |v|
      invariant forall k :: 0 <= k < |v| ==> op[k] == if k < j then 0.0 else v[k]
    {
      op := op[j := 0.0];
      j := j + 1;
    }
  }

  /** The loop dividing every component by n. */
  method DivideBy(row: seq<real>, n: real) returns (op: seq<real>)
    requires n != 0.0
    ensures op == Divided(row, n)
  {
    op := row;
    var i := 0;
    while i < |op|
      invariant 0 <= i <= |op| == |row|
      invariant forall k :: 0 <= k < |row| ==> op[k] == if k < i then row[k] / n else row[k]
    {
      op := op[i := op[i] / n];
      i := i + 1;
    }
  }
}
