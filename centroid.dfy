/**
 * clustering/centroid.go: the centroid of a set of vectors, and the centroids of every
 * cluster of an assignment computed into a caller-supplied slice of rows.
 */
module ClusterCentroids {
  import opened Wrappers
  import opened Errors
  import opened Vectors
  import opened VectorOps
  import Assignment

  /** Go indexes c[j] for every component of every vector, so no vector may be longer
      than the first one, whose length the centroid takes. */
  predicate FitsFirst(data: seq<Vector>)
    requires data != []
  {
    forall i :: 0 <= i < |data| ==> |data[i]| <= |data[0]|
  }

  /** The centroid of data: component j is the mean of the j-th components (a vector too
      short to have one contributes 0). */
  function Mean(data: seq<Vector>): (c: Vector)
    requires data != [] && FitsFirst(data)
    ensures |c| == |data[0]|
    ensures forall j :: 0 <= j < |c| ==> c[j] == ColumnSum(data, j) / |data| as real
  {
    SumRowsIsColumnSum(data, |data[0]|);
    Divided(SumRows(data, |data[0]|), |data| as real)
  }

  /** Centroid: an error for no data; otherwise the data summed into a zero vector the
      length of the first vector, then divided by the number of vectors. */
  method Centroid(data: seq<Vector>) returns (r: Result<Vector, Error>)
    requires data != [] ==> FitsFirst(data)
    ensures data == [] ==> r == Failure(CentroidNoData)
    ensures data != [] ==> r == Success(Mean(data))
  {
    if data == [] {
      return Failure(CentroidNoData);
    }
    var n := |data[0]|;
    var c := Zeros(n);
    for i := 0 to |data|
      invariant c == SumRows(data[..i], n)
    {
      assert data[..i + 1][..i] == data[..i];
      c := AddInto(c, data[i]);
    }
    assert data[..|data|] == data;
    c := DivideBy(c, |data| as real);
    return Success(c);
  }

  /** The mean of copies of one vector is that vector (centroid_test.go, "All ones"). */
  lemma {:induction false} MeanOfCopies(data: seq<Vector>, v: Vector)
    requires data != [] && forall i :: 0 <= i < |data| ==> data[i] == v
    ensures FitsFirst(data) && Mean(data) == v
  {
    forall j | 0 <= j < |v|
      ensures Mean(data)[j] == v[j]
    {
      ColumnSumOfCopies(data, v, j);
    }
  }

  /** Summing copies of v gives |data| times v in every component. */
  lemma {:induction false} ColumnSumOfCopies(data: seq<Vector>, v: Vector, j: nat)
    requires forall i :: 0 <= i < |data| ==> data[i] == v
    requires j < |v|
    ensures ColumnSum(data, j) == |data| as real * v[j]
  {
    if data != [] {
      ColumnSumOfCopies(data[..|data| - 1], v, j);
    }
  }

  /** centroid_test.go, "Average of 1 and 2 is 1.5". */
  lemma AverageOfOneAndTwo()
    ensures FitsFirst([[1.0, 2.0, 1.0], [2.0, 1.0, 2.0]])
    ensures Mean([[1.0, 2.0, 1.0], [2.0, 1.0, 2.0]]) == [1.5, 1.5, 1.5]
  {
    var data: seq<Vector> := [[1.0, 2.0, 1.0], [2.0, 1.0, 2.0]];
    assert data[..1] == [[1.0, 2.0, 1.0]] && data[..1][..0] == [];
    assert ColumnSum(data, 0) == 3.0 && ColumnSum(data, 1) == 3.0 && ColumnSum(data, 2) == 3.0;
  }

  /** The caller's slice of centroid rows that Centroids is given a pointer to. An empty
      row stands for a nil one. */
  class CentroidSlice {
    var rows: seq<Vector>

    constructor(rows: seq<Vector>)
      ensures this.rows == rows
    {
      this.rows := rows;
    }
  }

  /** The rows after Centroids' set-up: a fresh slice of n nil rows when the caller's does
      not have n, and n zero rows of width w when the first row is nil. */
  function Layout(rows: seq<Vector>, n: nat, w: nat): (cs: seq<Vector>)
    requires n >= 1
    ensures |cs| == n
  {
    var base := if |rows| != n then seq(n, _ => []) else rows;
    if base[0] == [] then seq(n, _ => Zeros(w)) else base
  }

  /** Every row set to zero, keeping its length. */
  function Cleared(cs: seq<Vector>): (r: seq<Vector>)
  {
    seq(|cs|, k requires 0 <= k < |cs| => Zeros(|cs[k]|))
  }

  /** What Go demands of Centroids' arguments once it gets past the nil checks: at least one
      cluster, an assignment in range for every vector, and room in its row for it. */
  predicate Demands(data: seq<Vector>, n: int, a: seq<int>, rows: seq<Vector>)
    requires data != []
  {
    && n >= 1 && |a| >= |data|
    && forall i :: 0 <= i < |data| ==>
         0 <= a[i] < n && |data[i]| <= |Layout(rows, n, |data[0]|)[a[i]]|
  }

  /** Every vector of data added into the row of its cluster, in order. */
  function ClusterSums(data: seq<Vector>, a: seq<int>, start: seq<Vector>): (cs: seq<Vector>)
    requires |a| >= |data|
    requires forall i :: 0 <= i < |data| ==> 0 <= a[i] < |start| && |data[i]| <= |start[a[i]]|
    ensures |cs| == |start| && forall k :: 0 <= k < |cs| ==> |cs[k]| == |start[k]|
  {
    if data == [] then start
    else
      var last := |data| - 1;
      var p := ClusterSums(data[..last], a, start);
      p[a[last] := Plus(p[a[last]], data[last])]
  }

  /** The rows Centroids computes: each cluster's sum divided by the number of vectors. */
  function CentroidsOf(data: seq<Vector>, n: int, a: seq<int>, rows: seq<Vector>): (cs: seq<Vector>)
    requires data != [] && Demands(data, n, a, rows)
    ensures |cs| == n
    ensures forall c :: 0 <= c < n ==> |cs[c]| == |Layout(rows, n, |data[0]|)[c]|
  {
    var sums := ClusterSums(data, a, Cleared(Layout(rows, n, |data[0]|)));
    seq(n, c requires 0 <= c < n => Divided(sums[c], |data| as real))
  }

  /**
   * Centroids.  No data and a nil pointer are errors that leave the caller's rows alone.
   * Otherwise the centroids are computed into the caller's rows when there are n of them,
   * and into a fresh slice the caller never sees when there are not.
   */
  method Centroids(data: seq<Vector>, n: int, assignments: seq<int>, centroids: CentroidSlice?)
    returns (err: Option<Error>)
    requires data != [] && centroids != null ==> Demands(data, n, assignments, centroids.rows)
    modifies centroids
    ensures data == [] ==> err == Some(CentroidsNoData)
    ensures data != [] && centroids == null ==> err == Some(CentroidsNil)
    ensures data == [] && centroids != null ==> centroids.rows == old(centroids.rows)
    ensures data != [] && centroids != null ==>
      && err.None?
      && centroids.rows == if |old(centroids.rows)| == n then CentroidsOf(data, n, assignments, old(centroids.rows))
                           else old(centroids.rows)
  {
    if data == [] {
      return Some(CentroidsNoData);
    }
    if centroids == null {
      return Some(CentroidsNil);
    }
    var cs := Arrange(centroids.rows, n, |data[0]|);
    cs := ClearRows(cs);
    cs := SumInto(data, assignments, cs);
    cs := DivideRows(cs, |data| as real);
    if |centroids.rows| == n {
      centroids.rows := cs;
    }
    return None;
  }

  /** The replacement of a slice without n rows by n nil rows, and the loop that gives every row the
      width of the data when the first row is nil. */
  method Arrange(rows: seq<Vector>, n: int, w: nat) returns (cs: seq<Vector>)
    requires n >= 1
    ensures cs == Layout(rows, n, w)
  {
    cs := rows;
    if |cs| != n {
      cs := seq(n, _ => []);
    }
    if cs[0] == [] {
      ghost var base := cs;
      for i := 0 to n
        invariant |cs| == n
        invariant forall k :: 0 <= k < n ==> cs[k] == if k < i then Zeros(w) else base[k]
      {
        cs := cs[i := Zeros(w)];
      }
    }
  }

  /** The loop resetting every row to zero. */
  method ClearRows(rows: seq<Vector>) returns (cs: seq<Vector>)
    ensures cs == Cleared(rows)
  {
    cs := rows;
    for k := 0 to |rows|
      invariant |cs| == |rows|
      invariant forall q :: 0 <= q < |rows| ==> cs[q] == if q < k then Zeros(|rows[q]|) else rows[q]
    {
      var row := Reset(cs[k]);
      cs := cs[k := row];
    }
  }

  /** The loop adding every vector into the row of its cluster. */
  method SumInto(data: seq<Vector>, a: seq<int>, start: seq<Vector>) returns (cs: seq<Vector>)
    requires |a| >= |data|
    requires forall i :: 0 <= i < |data| ==> 0 <= a[i] < |start| && |data[i]| <= |start[a[i]]|
    ensures cs == ClusterSums(data, a, start)
  {
    cs := start;
    for i := 0 to |data|
      invariant cs == ClusterSums(data[..i], a, start)
    {
      assert data[..i + 1][..i] == data[..i];
      var row := AddInto(cs[a[i]], data[i]);
      cs := cs[a[i] := row];
    }
    assert data[..|data|] == data;
  }

  /** The loop dividing every row by the number of vectors. */
  method DivideRows(rows: seq<Vector>, count: real) returns (cs: seq<Vector>)
    requires count != 0.0
    ensures |cs| == |rows| && forall c :: 0 <= c < |rows| ==> cs[c] == Divided(rows[c], count)
  {
    cs := rows;
    for c := 0 to |rows|
      invariant |cs| == |rows|
      invariant forall q :: 0 <= q < |rows| ==> cs[q] == if q < c then Divided(rows[q], count) else rows[q]
    {
      var row := DivideBy(cs[c], count);
      cs := cs[c := row];
    }
  }

  /** Component j of a cluster's sum is its start value plus the j-th column sum of the
      vectors Assign would put in that cluster. */
  lemma {:induction false} ClusterSumsAreGroupSums(data: seq<Vector>, a: seq<int>, start: seq<Vector>, c: nat, j: nat)
    requires |a| >= |data|
    requires forall i :: 0 <= i < |data| ==> 0 <= a[i] < |start| && |data[i]| <= |start[a[i]]|
    requires c < |start| && j < |start[c]|
    ensures ClusterSums(data, a, start)[c][j]
         == start[c][j] + ColumnSum(Assignment.Members(data, a[..|data|], c), j)
  {
    if data != [] {
      var last := |data| - 1;
      ClusterSumsAreGroupSums(data[..last], a, start, c, j);
      assert a[..|data|][..last] == a[..last];
      var g := Assignment.Members(data[..last], a[..last], c);
      var p := ClusterSums(data[..last], a, start);
      assert ClusterSums(data, a, start)[c][j] == p[c][j] + (if a[last] == c then At(data[last], j) else 0.0);
      assert Assignment.Members(data, a[..|data|], c) == g + (if a[last] == c then [data[last]] else []);
      if a[last] == c {
        assert (g + [data[last]])[..|g|] == g;
        assert ColumnSum(g + [data[last]], j) == ColumnSum(g, j) + At(data[last], j);
      } else {
        assert g + [] == g;
      }
    }
  }

  /** Centroids divides each cluster's sum by the number of all vectors: component j of
      centroid c is the j-th column sum of the vectors Assign puts in cluster c, over |data|. */
  lemma CentroidIsScaledGroupSum(data: seq<Vector>, n: int, a: seq<int>, rows: seq<Vector>, c: nat, j: nat)
    requires data != [] && Demands(data, n, a, rows)
    requires c < n && j < |Layout(rows, n, |data[0]|)[c]|
    ensures CentroidsOf(data, n, a, rows)[c][j]
         == ColumnSum(Assignment.Members(data, a[..|data|], c), j) / |data| as real
  {
    ClusterSumsAreGroupSums(data, a, Cleared(Layout(rows, n, |data[0]|)), c, j);
  }

  /** Rows as KMeans keeps them between calls: n nil rows, or n rows the width of the data. */
  predicate Uniform(rows: seq<Vector>, n: nat, w: nat)
  {
    && |rows| == n
    && ((forall k :: 0 <= k < n ==> rows[k] == []) || (forall k :: 0 <= k < n ==> |rows[k]| == w))
  }

  /** Centroids demands only in-range assignments and vectors no longer than the first when
      the rows are uniform, and computes the same centroids whatever uniform rows it gets. */
  lemma UniformRows(data: seq<Vector>, n: nat, a: seq<int>, rows: seq<Vector>)
    requires data != [] && FitsFirst(data) && n >= 1 && Uniform(rows, n, |data[0]|)
    requires |a| >= |data| && forall i :: 0 <= i < |data| ==> 0 <= a[i] < n
    ensures Demands(data, n, a, rows) && Demands(data, n, a, seq(n, _ => []))
    ensures CentroidsOf(data, n, a, rows) == CentroidsOf(data, n, a, seq(n, _ => []))
    ensures Uniform(CentroidsOf(data, n, a, rows), n, |data[0]|)
  {
    var w := |data[0]|;
    var nils: seq<Vector> := seq(n, _ => []);
    assert Layout(nils, n, w) == seq(n, _ => Zeros(w));
    assert Cleared(Layout(rows, n, w)) == Cleared(Layout(nils, n, w));
  }

  /** With a single cluster and the first call's nil rows, Centroids agrees with Centroid. */
  lemma {:induction false} OneClusterIsCentroid(data: seq<Vector>, a: seq<int>)
    requires data != [] && FitsFirst(data) && |a| == |data|
    requires forall i :: 0 <= i < |a| ==> a[i] == 0
    ensures Demands(data, 1, a, [[]])
    ensures CentroidsOf(data, 1, a, [[]]) == [Mean(data)]
  {
    var w := |data[0]|;
    assert Layout([[]], 1, w) == [Zeros(w)];
    var cs := CentroidsOf(data, 1, a, [[]]);
    forall j | 0 <= j < w
      ensures cs[0][j] == Mean(data)[j]
    {
      CentroidIsScaledGroupSum(data, 1, a, [[]], 0, j);
      AllInOneGroup(data, a);
      assert a[..|data|] == a;
    }
    assert |cs[0]| == w;
    assert cs[0] == Mean(data);
  }

  /** With every assignment 0, group 0 is all the data. */
  lemma {:induction false} AllInOneGroup(data: seq<Vector>, a: seq<int>)
    requires |a| == |data| && forall i :: 0 <= i < |a| ==> a[i] == 0
    ensures Assignment.Members(data, a, 0) == data
  {
    if data != [] {
      var last := |data| - 1;
      assert forall i :: 0 <= i < last ==> a[..last][i] == a[i];
      AllInOneGroup(data[..last], a[..last]);
      assert data[..last] + [data[last]] == data;
    }
  }
}
