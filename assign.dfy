/**
 * clustering/assign.go: grouping vectors by their cluster assignment, and equality of
 * the resulting groups.  Go calls a group `Cluster` and a slice of them `Clusters`; the
 * model names them Group and Groups, because clustering/cluster.go declares a different
 * Cluster (the map-backed one in module ClusterSet).
 */
module Assignment {
  import opened Wrappers
  import opened Errors
  import opened Vectors

  /** assign.go's Cluster: a slice of vectors. */
  type Group = seq<Vector>

  /** assign.go's Clusters: a slice of groups. */
  type Groups = seq<Group>

  /** The running maximum Assign takes over the assignments, starting from 0: the largest
      assignment, or 0 when there is none above 0. */
  function MaxAssignment(a: seq<int>): (m: nat)
    ensures forall i :: 0 <= i < |a| ==> a[i] <= m
    ensures m == 0 || exists i :: 0 <= i < |a| && a[i] == m
  {
    if a == [] then 0
    else
      var m := MaxAssignment(a[..|a| - 1]);
      if a[|a| - 1] > m then a[|a| - 1] else m
  }

  /** The vectors assigned to cluster j, in the order they appear in data. */
  function Members(data: seq<Vector>, a: seq<int>, j: int): (g: Group)
    requires |a| == |data|
    ensures |g| <= |data|
  {
    if data == [] then []
    else
      var last := |data| - 1;
      Members(data[..last], a[..last], j) + (if a[last] == j then [data[last]] else [])
  }

  /** Clusters 0..m, cluster j holding Members(data, a, j). */
  function Grouped(data: seq<Vector>, a: seq<int>, m: nat): (gs: Groups)
    requires |a| == |data|
    ensures |gs| == m + 1
  {
    seq(m + 1, j requires 0 <= j <= m => Members(data, a, j))
  }

  /** Assign: an error when the lengths differ; otherwise MaxAssignment + 1 groups, group j
      holding the vectors assigned to j in input order.  A negative assignment makes Go
      index op out of range, so callers must not pass one. */
  method Assign(data: seq<Vector>, assignment: seq<int>) returns (r: Result<Groups, Error>)
    requires |assignment| == |data| ==> forall i :: 0 <= i < |assignment| ==> assignment[i] >= 0
    ensures |assignment| != |data| ==> r == Failure(AssignmentLengthMismatch)
    ensures |assignment| == |data| ==> r == Success(Grouped(data, assignment, MaxAssignment(assignment)))
  {
    if |assignment| != |data| {
      return Failure(AssignmentLengthMismatch);
    }
    var clusters: nat := 0;
    for i := 0 to |assignment|
      invariant clusters == MaxAssignment(assignment[..i])
    {
      assert assignment[..i + 1][..i] == assignment[..i];
      if assignment[i] > clusters {
        clusters := assignment[i];
      }
    }
    assert assignment[..|assignment|] == assignment;
    var op: Groups := seq(clusters + 1, _ => []);
    for i := 0 to |assignment|
      invariant op == Grouped(data[..i], assignment[..i], clusters)
    {
      GroupedStep(data, assignment, clusters, i);
      var a := assignment[i];
      op := op[a := op[a] + [data[i]]];
    }
    assert data[..|data|] == data && assignment[..|assignment|] == assignment;
    return Success(op);
  }

  /** One pass of the append loop adds data[i] to the end of group a[i] and to no other. */
  lemma GroupedStep(data: seq<Vector>, a: seq<int>, m: nat, i: nat)
    requires |a| == |data| && i < |data| && 0 <= a[i] <= m
    ensures Grouped(data[..i + 1], a[..i + 1], m)
         == Grouped(data[..i], a[..i], m)[a[i] := Grouped(data[..i], a[..i], m)[a[i]] + [data[i]]]
  {
    var g0, g1 := Grouped(data[..i], a[..i], m), Grouped(data[..i + 1], a[..i + 1], m);
    forall j | 0 <= j <= m
      ensures g1[j] == g0[a[i] := g0[a[i]] + [data[i]]][j]
    {
      assert data[..i + 1][..i] == data[..i] && a[..i + 1][..i] == a[..i];
      assert g1[j] == Members(data[..i], a[..i], j) + (if a[i] == j then [data[i]] else []);
    }
  }

  /** A vector is in group j exactly when some position assigned to j holds it. */
  lemma {:induction false} MembersAreAssigned(data: seq<Vector>, a: seq<int>, j: int, x: Vector)
    requires |a| == |data|
    ensures x in Members(data, a, j) <==> exists i :: 0 <= i < |data| && a[i] == j && data[i] == x
  {
    if data != [] {
      var last := |data| - 1;
      MembersAreAssigned(data[..last], a[..last], j, x);
      if x in Members(data[..last], a[..last], j) {
        var i :| 0 <= i < last && a[..last][i] == j && data[..last][i] == x;
        assert a[i] == j && data[i] == x;
      }
      if exists i :: 0 <= i < |data| && a[i] == j && data[i] == x {
        var i :| 0 <= i < |data| && a[i] == j && data[i] == x;
        if i < last {
          assert a[..last][i] == j && data[..last][i] == x;
        }
      }
    }
  }

  /** The total number of vectors over all groups. */
  function TotalSize(gs: Groups): nat
  {
    if gs == [] then 0 else TotalSize(gs[..|gs| - 1]) + |gs[|gs| - 1]|
  }

  /** Appending one vector to one group adds one to the total. */
  lemma {:induction false} TotalSizeAppend(gs: Groups, k: nat, x: Vector)
    requires k < |gs|
    ensures TotalSize(gs[k := gs[k] + [x]]) == TotalSize(gs) + 1
  {
    var last := |gs| - 1;
    var hs := gs[k := gs[k] + [x]];
    if k < last {
      assert hs[..last] == gs[..last][k := gs[k] + [x]];
      TotalSizeAppend(gs[..last], k, x);
    } else {
      assert hs[..last] == gs[..last];
    }
  }

  /** Groups that are all empty hold no vectors. */
  lemma {:induction false} EmptyGroupsHoldNothing(gs: Groups)
    requires forall k :: 0 <= k < |gs| ==> gs[k] == []
    ensures TotalSize(gs) == 0
  {
    if gs != [] {
      EmptyGroupsHoldNothing(gs[..|gs| - 1]);
    }
  }

  /** Every vector lands in exactly one group: the groups hold as many vectors as data. */
  lemma {:induction false} GroupedKeepsEveryVector(data: seq<Vector>, a: seq<int>, m: nat)
    requires |a| == |data|
    requires forall i :: 0 <= i < |a| ==> 0 <= a[i] <= m
    ensures TotalSize(Grouped(data, a, m)) == |data|
  {
    if data == [] {
      EmptyGroupsHoldNothing(Grouped(data, a, m));
    } else {
      var last := |data| - 1;
      GroupedKeepsEveryVector(data[..last], a[..last], m);
      GroupedStep(data, a, m, last);
      assert data[..last + 1] == data && a[..last + 1] == a;
      TotalSizeAppend(Grouped(data[..last], a[..last], m), a[last], data[last]);
    }
  }

  /** assign_test.go, "All to one" and "All to zero". */
  lemma AssignTestCases(u: Vector, w: Vector)
    ensures MaxAssignment([1, 1]) == 1 && Grouped([u, w], [1, 1], 1) == [[], [u, w]]
    ensures MaxAssignment([0, 0]) == 0 && Grouped([u, w], [0, 0], 0) == [[u, w]]
  {
    assert [u, w][..1] == [u] && [1, 1][..1] == [1] && [0, 0][..1] == [0];
    assert [u][..0] == [] && [1][..0] == [] && [0][..0] == [];
    assert Members([u], [1], 1) == [u] && Members([u], [1], 0) == [];
    assert Members([u, w], [1, 1], 0) == [] && Members([u, w], [1, 1], 1) == [u, w];
    assert Members([u], [0], 0) == [u] && Members([u, w], [0, 0], 0) == [u, w];
  }

  /** assign.go's Cluster.Eq: same length and every member Vector.Eq its counterpart. */
  function GroupEq(c: Group, o: Group): (r: bool)
    ensures r <==> |c| == |o| && forall i :: 0 <= i < |c| ==> Eq(o[i], c[i])
    ensures r <==> c == o
  {
    |c| == |o| && FirstUnequalVector(c, o, 0) == |c|
  }

  /** Where Cluster.Eq's scan from position i returns false, or the length when it does not. */
  function FirstUnequalVector(c: Group, o: Group, i: nat): (k: nat)
    requires |c| == |o| && i <= |c|
    ensures i <= k <= |c|
    ensures forall j :: i <= j < k ==> Eq(o[j], c[j])
    ensures k < |c| ==> !Eq(o[k], c[k])
    decreases |c| - i
  {
    if i == |c| then i
    else if !Eq(o[i], c[i]) then i
    else FirstUnequalVector(c, o, i + 1)
  }

  /** assign.go's Clusters.Eq: same length and every group Cluster.Eq its counterpart. */
  function GroupsEq(c: Groups, o: Groups): (r: bool)
    ensures r <==> |c| == |o| && forall i :: 0 <= i < |c| ==> GroupEq(o[i], c[i])
    ensures r <==> c == o
  {
    |c| == |o| && FirstUnequalGroup(c, o, 0) == |c|
  }

  /** Where Clusters.Eq's scan from position i returns false, or the length when it does not. */
  function FirstUnequalGroup(c: Groups, o: Groups, i: nat): (k: nat)
    requires |c| == |o| && i <= |c|
    ensures i <= k <= |c|
    ensures forall j :: i <= j < k ==> GroupEq(o[j], c[j])
    ensures k < |c| ==> !GroupEq(o[k], c[k])
    decreases |c| - i
  {
    if i == |c| then i
    else if !GroupEq(o[i], c[i]) then i
    else FirstUnequalGroup(c, o, i + 1)
  }
}
