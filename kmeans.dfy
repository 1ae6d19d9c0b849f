/**
 * clustering/kmeans.go: k-means clustering.  The initial assignment is random (the random
 * source is a parameter), the centroids are recomputed into one slice of rows, and every
 * vector moves to its nearest centroid until a pass moves none.  Go's loops need not end
 * (the seeding loop never does when there are more clusters than vectors), so a fuel
 * bound stops them and `halted` reports it.
 */
module KMeansClustering {
  import opened Wrappers
  import opened Errors
  import opened Vectors
  import Distance
  import RandomSource
  import opened ClusterCentroids

  /** findNearest's state: the nearest centroid so far, its distance, and the error that
      ended the scan, if any. */
  datatype Scan = Scan(index: nat, nearest: real, err: Option<Error>)

  /** findNearest after looking at the first i centroids: a strictly smaller distance
      replaces the nearest one, and the first error ends the scan. */
  function ScanTo(v: Vector, cs: seq<Vector>, d: Distance.Function, i: nat): (s: Scan)
    requires 1 <= i <= |cs|
    ensures s.index < i
  {
    if i == 1 then
      match d(v, cs[0])
      case Failure(e) => Scan(0, 0.0, Some(e))
      case Success(x) => Scan(0, x, None)
    else
      var s := ScanTo(v, cs, d, i - 1);
      if s.err.Some? then s
      else
        match d(v, cs[i - 1])
        case Failure(e) => Scan(s.index, s.nearest, Some(e))
        case Success(x) => if x < s.nearest then Scan(i - 1, x, None) else s
  }

  /** With no failing distance, the scan finds the first of the nearest centroids. */
  lemma {:induction false} ScanFindsFirstNearest(v: Vector, cs: seq<Vector>, d: Distance.Function, i: nat)
    requires 1 <= i <= |cs|
    requires forall k :: 0 <= k < i ==> d(v, cs[k]).Success?
    ensures var s := ScanTo(v, cs, d, i);
      && s.err.None?
      && s.nearest == d(v, cs[s.index]).value
      && (forall k :: 0 <= k < i ==> s.nearest <= d(v, cs[k]).value)
      && (forall k :: 0 <= k < s.index ==> s.nearest < d(v, cs[k]).value)
  {
    if i > 1 {
      ScanFindsFirstNearest(v, cs, d, i - 1);
    }
  }

  /** The scan fails exactly when some distance fails, and then with the first such error. */
  lemma {:induction false} ScanStopsAtFirstError(v: Vector, cs: seq<Vector>, d: Distance.Function, i: nat)
    requires 1 <= i <= |cs|
    ensures ScanTo(v, cs, d, i).err.Some? <==> exists k :: 0 <= k < i && d(v, cs[k]).Failure?
    ensures ScanTo(v, cs, d, i).err.Some? ==>
      exists k :: 0 <= k < i && d(v, cs[k]) == Failure(ScanTo(v, cs, d, i).err.value)
                 && forall q :: 0 <= q < k ==> d(v, cs[q]).Success?
  {
    if i > 1 {
      ScanStopsAtFirstError(v, cs, d, i - 1);
      if ScanTo(v, cs, d, i - 1).err.None? && d(v, cs[i - 1]).Failure? {
        assert forall q :: 0 <= q < i - 1 ==> d(v, cs[q]).Success?;
      }
    }
  }

  /** Once the scan has failed, looking at more centroids changes nothing. */
  lemma {:induction false} ScanErrorStays(v: Vector, cs: seq<Vector>, d: Distance.Function, i: nat, j: nat)
    requires 1 <= i <= j <= |cs| && ScanTo(v, cs, d, i).err.Some?
    ensures ScanTo(v, cs, d, j) == ScanTo(v, cs, d, i)
    decreases j
  {
    if j > i {
      ScanErrorStays(v, cs, d, i, j - 1);
    }
  }

  /** findNearest: an error for no centroids; otherwise the scan over all of them.  On a
      distance error Go returns the index it had reached with the error. */
  method FindNearest(v: Vector, centroids: CentroidSlice?, d: Distance.Function)
    returns (n: nat, err: Option<Error>)
    ensures centroids == null || centroids.rows == [] ==> n == 0 && err == Some(NoCentroids)
    ensures centroids != null && centroids.rows != [] ==>
      var s := ScanTo(v, centroids.rows, d, |centroids.rows|);
      n == s.index && err == s.err
  {
    if centroids == null || |centroids.rows| == 0 {
      return 0, Some(NoCentroids);
    }
    var cs := centroids.rows;
    var first := d(v, cs[0]);
    if first.Failure? {
      ScanErrorStays(v, cs, d, 1, |cs|);
      return 0, Some(first.error);
    }
    var nd := first.value;
    n := 0;
    var i := 1;
    while i < |cs|
      invariant 1 <= i <= |cs|
      invariant ScanTo(v, cs, d, i) == Scan(n, nd, None)
    {
      var cd := d(v, cs[i]);
      if cd.Failure? {
        ScanErrorStays(v, cs, d, i + 1, |cs|);
        return n, Some(cd.error);
      }
      if cd.value < nd {
        nd := cd.value;
        n := i;
      }
      i := i + 1;
    }
    return n, None;
  }

  /** Every assignment names one of the n clusters. */
  predicate InRange(assignment: seq<int>, n: int)
  {
    forall i :: 0 <= i < |assignment| ==> 0 <= assignment[i] < n
  }

  /** The centroids KMeans computes for an assignment. */
  function CentroidsFor(data: seq<Vector>, n: nat, assignment: seq<int>): (cs: seq<Vector>)
    requires data != [] && FitsFirst(data) && n >= 1
    requires |assignment| == |data| && InRange(assignment, n)
    ensures |cs| == n && Uniform(cs, n, |data[0]|)
  {
    UniformRows(data, n, assignment, seq(n, _ => []));
    CentroidsOf(data, n, assignment, seq(n, _ => []))
  }

  /** The fixed point KMeans stops at: every vector is assigned to the first of its nearest
      centroids among the centroids of the assignment itself. */
  predicate Converged(data: seq<Vector>, n: nat, assignment: seq<int>, d: Distance.Function)
    requires data != [] && FitsFirst(data) && n >= 1
    requires |assignment| == |data| && InRange(assignment, n)
  {
    var cs := CentroidsFor(data, n, assignment);
    forall i :: 0 <= i < |data| ==>
      ScanTo(data[i], cs, d, n).err.None? && ScanTo(data[i], cs, d, n).index == assignment[i]
  }

  /** A bounded set of naturals has no more elements than its bound. */
  lemma {:induction false} BoundedSetSize(s: set<nat>, size: nat)
    requires forall p :: p in s ==> p < size
    ensures |s| <= size
    decreases size
  {
    if size > 0 {
      BoundedSetSize(s - {size - 1}, size - 1);
    } else {
      assert s == {};
    }
  }

  /**
   * The random start: each cluster i in turn takes a position no earlier cluster took
   * (DrawFree), and every other position is then assigned a random cluster.  A start that
   * completes leaves every cluster with a member, so it needs at least as many vectors as
   * clusters; with more clusters than vectors it can only halt.
   */
  method InitialAssignment(size: nat, n: nat, rng: RandomSource.Source, fuel: nat)
    returns (assignment: seq<int>, halted: bool)
    requires size > 0 && n > 0 && rng.Valid()
    modifies rng
    ensures |assignment| == size && InRange(assignment, n)
    ensures !halted ==> n <= size
    ensures !halted ==> forall c :: 0 <= c < n ==> c in assignment
  {
    assignment := seq(size, _ => 0);
    halted := false;
    var taken: set<nat> := {};
    ghost var seeds: seq<nat> := [];
    for i := 0 to n
      invariant |assignment| == size && InRange(assignment, n)
      invariant |seeds| == i == |taken|
      invariant forall p :: p in taken ==> p < size
      invariant forall c :: 0 <= c < i ==> seeds[c] in taken && assignment[seeds[c]] == c
    {
      var to := DrawFree(size, taken, rng, fuel);
      if to.None? {
        halted := true;
        return;
      }
      assignment := assignment[to.value := i];
      taken := taken + {to.value};
      seeds := seeds + [to.value];
    }
    BoundedSetSize(taken, size);
    for i := 0 to size
      invariant |assignment| == size && InRange(assignment, n)
      invariant forall c :: 0 <= c < n ==> seeds[c] in taken && assignment[seeds[c]] == c
    {
      if i !in taken {
        var k := rng.Intn(n);
        assignment := assignment[i := k];
      }
    }
    forall c | 0 <= c < n
      ensures c in assignment
    {
      assert assignment[seeds[c]] == c;
    }
  }

  /** The inner loop of the start: draw positions until one is not taken yet, giving up
      after fuel draws (Go draws for ever). */
  method DrawFree(size: nat, taken: set<nat>, rng: RandomSource.Source, fuel: nat) returns (to: Option<nat>)
    requires size > 0 && rng.Valid()
    modifies rng
    ensures to.Some? ==> to.value < size && to.value !in taken
  {
    var tries := 0;
    while tries < fuel
      decreases fuel - tries
    {
      var p := rng.Intn(size);
      tries := tries + 1;
      if p !in taken {
        return Some(p);
      }
    }
    return None;
  }

  /** One pass over the data: each vector moves to its nearest centroid.  A distance error
      ends the pass with the moves made so far. */
  method Reassign(data: seq<Vector>, n: nat, assignment: seq<int>, centroids: CentroidSlice, d: Distance.Function)
    returns (next: seq<int>, changed: bool, err: Option<Error>)
    requires |centroids.rows| == n >= 1 && |assignment| == |data| && InRange(assignment, n)
    ensures |next| == |data| && InRange(next, n)
    ensures err.None? ==>
      && (forall i :: 0 <= i < |data| ==> ScanTo(data[i], centroids.rows, d, n).err.None?
                                            && next[i] == ScanTo(data[i], centroids.rows, d, n).index)
      && (changed <==> next != assignment)
    ensures err.Some? ==>
      exists i ::
        && 0 <= i < |data| && ScanTo(data[i], centroids.rows, d, n).err == err
        && (forall k :: 0 <= k < i ==>
              ScanTo(data[k], centroids.rows, d, n).err.None? && next[k] == ScanTo(data[k], centroids.rows, d, n).index)
        && (forall k :: i <= k < |data| ==> next[k] == assignment[k])
  {
    next, changed, err := assignment, false, None;
    for i := 0 to |data|
      invariant |next| == |data| && InRange(next, n)
      invariant forall k :: 0 <= k < i ==> ScanTo(data[k], centroids.rows, d, n).err.None?
                                           && next[k] == ScanTo(data[k], centroids.rows, d, n).index
      invariant forall k :: i <= k < |data| ==> next[k] == assignment[k]
      invariant changed <==> exists k :: 0 <= k < i && next[k] != assignment[k]
    {
      var current := next[i];
      var nearest, e := FindNearest(data[i], centroids, d);
      if e.Some? {
        return next, changed, e;
      }
      if current != nearest {
        next := next[i := nearest];
        changed := true;
      }
    }
    if !changed {
      assert next == assignment;
    }
  }

  /**
   * KMeans.  A non-positive cluster count, nil data and empty data are errors.  Otherwise
   * the result assigns every vector one of the n clusters; a distance error is returned
   * with the assignment as it stood, and a run that ends normally stops at a fixed point.
   */
  method KMeans(data: Option<seq<Vector>>, n: int, d: Distance.Function, rng: RandomSource.Source, fuel: nat)
    returns (assignment: seq<int>, err: Option<Error>, halted: bool)
    requires rng.Valid()
    requires data.Some? && data.value != [] ==> FitsFirst(data.value)
    modifies rng
    ensures n <= 0 ==> assignment == [] && err == Some(NonPositiveClusterCount) && !halted
    ensures n > 0 && data.None? ==> assignment == [] && err == Some(NilData) && !halted
    ensures n > 0 && data == Some([]) ==> assignment == [] && err == Some(EmptyData) && !halted
    ensures halted ==> err.None?
    ensures n > 0 && data.Some? && data.value != [] ==>
      && |assignment| == |data.value| && InRange(assignment, n)
      && (n > |data.value| ==> halted)
      && (err.Some? ==> exists i, c :: 0 <= i < |data.value| && d(data.value[i], c) == Failure(err.value))
      && (err.None? && !halted ==> Converged(data.value, n, assignment, d))
  {
    if n <= 0 {
      return [], Some(NonPositiveClusterCount), false;
    }
    if data.None? {
      return [], Some(NilData), false;
    }
    var ds := data.value;
    if |ds| == 0 {
      return [], Some(EmptyData), false;
    }
    err := None;
    assignment, halted := InitialAssignment(|ds|, n, rng, fuel);
    if halted {
      return;
    }
    var centroids := new CentroidSlice(seq(n, _ => []));
    var done := false;
    var passes: nat := 0;
    while !done
      invariant |assignment| == |ds| && InRange(assignment, n)
      invariant Uniform(centroids.rows, n, |ds[0]|)
      invariant n <= |ds| && err.None?
      invariant done ==> Converged(ds, n, assignment, d)
      invariant passes <= fuel
      decreases fuel - passes
    {
      if passes == fuel {
        halted := true;
        return;
      }
      passes := passes + 1;
      UniformRows(ds, n, assignment, centroids.rows);
      // Centroids cannot fail here: the data is not empty and the pointer is not nil.
      var centroidsErr := Centroids(ds, n, assignment, centroids);
      assert centroidsErr.None?;
      var changed;
      var before := assignment;
      assignment, changed, err := Reassign(ds, n, assignment, centroids, d);
      if err.Some? {
        DistanceErrorOf(ds, centroids.rows, d, n, err);
        return;
      }
      done := !changed;
      if done {
        assert assignment == before;
      }
    }
  }

  /** A failed scan of some vector comes from some distance call that failed. */
  lemma DistanceErrorOf(data: seq<Vector>, cs: seq<Vector>, d: Distance.Function, n: nat, err: Option<Error>)
    requires |cs| == n >= 1 && err.Some?
    requires exists i :: 0 <= i < |data| && ScanTo(data[i], cs, d, n).err == err
    ensures exists i, c :: 0 <= i < |data| && d(data[i], c) == Failure(err.value)
  {
    var i :| 0 <= i < |data| && ScanTo(data[i], cs, d, n).err == err;
    ScanStopsAtFirstError(data[i], cs, d, n);
    var k :| 0 <= k < n && d(data[i], cs[k]) == Failure(err.value);
  }
}
