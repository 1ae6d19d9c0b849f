/**
 * clustering/cluster.go: a cluster whose members are vectors keyed by an ID, with a
 * centroid recomputed whenever the members change.  Go iterates the member map in an
 * unspecified order; the model sums the members in an arbitrary order and proves that
 * the order does not matter.
 */
module ClusterSet {
  import opened Wrappers
  import opened Errors
  import opened Vectors
  import opened VectorOps

  /** ClusterMember: a vector and the ID it is stored under. */
  datatype ClusterMember = ClusterMember(ID: string, Vector: Vector)

  /** Some key of a non-empty set of keys, always the same one for the same set. */
  ghost function Pick(keys: set<string>): (k: string)
    requires keys != {}
    ensures k in keys
  {
    var k :| k in keys; k
  }

  /** Component j summed over the members with the given keys. */
  ghost function KeySum(data: map<string, Vector>, keys: set<string>, j: nat): real
    requires keys <= data.Keys
    decreases |keys|
  {
    if keys == {} then 0.0
    else
      var k := Pick(keys);
      KeySum(data, keys - {k}, j) + At(data[k], j)
  }

  /** The sum does not depend on the order: any one key can be taken out first. */
  lemma {:induction false} KeySumRemove(data: map<string, Vector>, keys: set<string>, k: string, j: nat)
    requires keys <= data.Keys && k in keys
    ensures KeySum(data, keys, j) == KeySum(data, keys - {k}, j) + At(data[k], j)
    decreases |keys|
  {
    var p := Pick(keys);
    if p != k {
      KeySumRemove(data, keys - {p}, k, j);
      KeySumRemove(data, keys - {k}, p, j);
      assert keys - {p} - {k} == keys - {k} - {p};
    }
  }

  /** The sum depends only on the members with those keys. */
  lemma {:induction false} KeySumOfSameMembers(data: map<string, Vector>, other: map<string, Vector>, keys: set<string>, j: nat)
    requires keys <= data.Keys && keys <= other.Keys
    requires forall k :: k in keys ==> data[k] == other[k]
    ensures KeySum(data, keys, j) == KeySum(other, keys, j)
    decreases |keys|
  {
    if keys != {} {
      KeySumOfSameMembers(data, other, keys - {Pick(keys)}, j);
    }
  }

  /** calculateCentroid's result: a zero vector of the given length for no members, and
      otherwise component j is the mean of the members' j-th components. */
  ghost function CentroidOf(data: map<string, Vector>, length: nat): (c: Vector)
    requires forall k :: k in data ==> |data[k]| <= length
    ensures |c| == length
  {
    if |data| == 0 then Zeros(length)
    else seq(length, j requires 0 <= j < length => KeySum(data, data.Keys, j) / |data| as real)
  }

  /**
   * calculateCentroid: a zero vector of the given length, into which, when there are
   * members, every member is added (in whatever order the keys come) before each
   * component is divided by the number of members.  Go indexes op[j] for every component
   * of every member, so no member may be longer than the length.
   */
  method CalculateCentroid(length: nat, data: map<string, Vector>) returns (op: Vector)
    requires forall k :: k in data ==> |data[k]| <= length
    ensures op == CentroidOf(data, length)
  {
    op := Zeros(length);
    if |data| == 0 {
      return;
    }
    var remaining := data.Keys;
    ghost var visited: set<string> := {};
    while remaining != {}
      invariant remaining + visited == data.Keys && remaining !! visited
      invariant |op| == length
      invariant forall j :: 0 <= j < length ==> op[j] == KeySum(data, visited, j)
      decreases |remaining|
    {
      var k :| k in remaining;
      op := AddInto(op, data[k]);
      forall j | 0 <= j < length
        ensures op[j] == KeySum(data, visited + {k}, j)
      {
        KeySumRemove(data, visited + {k}, k, j);
        assert visited + {k} - {k} == visited;
      }
      remaining, visited := remaining - {k}, visited + {k};
    }
    op := DivideBy(op, |data| as real);
  }

  /** The members after storing ms in order: a later member with the same ID replaces an
      earlier one. */
  function Stored(data: map<string, Vector>, ms: seq<ClusterMember>): (r: map<string, Vector>)
    ensures forall m :: m in ms ==> m.ID in r
  {
    if ms == [] then data
    else
      var last := ms[|ms| - 1];
      Stored(data, ms[..|ms| - 1])[last.ID := last.Vector]
  }

  /** Storing members leaves every ID none of them has as it was. */
  lemma {:induction false} StoredLeavesOthers(data: map<string, Vector>, ms: seq<ClusterMember>, id: string)
    requires forall k :: 0 <= k < |ms| ==> ms[k].ID != id
    ensures (id in Stored(data, ms) <==> id in data)
    ensures id in data ==> Stored(data, ms)[id] == data[id]
  {
    if ms != [] {
      StoredLeavesOthers(data, ms[..|ms| - 1], id);
    }
  }

  /** An ID ends up holding the vector of the last member that has it. */
  lemma {:induction false} LastMemberWins(data: map<string, Vector>, ms: seq<ClusterMember>, k: nat)
    requires k < |ms| && forall q :: k < q < |ms| ==> ms[q].ID != ms[k].ID
    ensures Stored(data, ms)[ms[k].ID] == ms[k].Vector
  {
    if k < |ms| - 1 {
      LastMemberWins(data, ms[..|ms| - 1], k);
    }
  }

  /** Where AddMembers' check of the members from position i first fails, or the number
      of members when none fails. */
  function FirstMisfit(ms: seq<ClusterMember>, length: int, i: nat): (k: nat)
    requires i <= |ms|
    ensures i <= k <= |ms|
    ensures forall q :: i <= q < k ==> |ms[q].Vector| == length
    ensures k < |ms| ==> |ms[k].Vector| != length
    decreases |ms| - i
  {
    if i == |ms| then i
    else if |ms[i].Vector| != length then i
    else FirstMisfit(ms, length, i + 1)
  }

  /** The vectors paired with the IDs they are stored under. */
  function Zip(ids: seq<string>, vs: seq<Vector>): (ms: seq<ClusterMember>)
    requires |ids| == |vs|
    ensures |ms| == |vs| && forall i :: 0 <= i < |vs| ==> ms[i] == ClusterMember(ids[i], vs[i])
  {
    seq(|vs|, i requires 0 <= i < |vs| => ClusterMember(ids[i], vs[i]))
  }

  /** Storing one more member is one more map update. */
  lemma StoredStep(data: map<string, Vector>, ms: seq<ClusterMember>, i: nat)
    requires i < |ms|
    ensures Stored(data, ms[..i + 1]) == Stored(data, ms[..i])[ms[i].ID := ms[i].Vector]
  {
    assert ms[..i + 1][..i] == ms[..i];
  }

  /** Cluster: the expected vector length, the members by ID and their centroid. */
  class Cluster {
    const vectorLength: nat
    var Data: map<string, Vector>
    var Centroid: Vector

    /** Only vectors of the expected length are ever stored. */
    ghost predicate Valid()
      reads this
    {
      forall id :: id in Data ==> |Data[id]| == vectorLength
    }

    /** NewCluster: no members, and a zero centroid of the expected length (Go's make panics
        on a negative length). */
    constructor(vectorLength: nat)
      ensures Valid() && this.vectorLength == vectorLength
      ensures Data == map[] && Centroid == Zeros(vectorLength)
    {
      this.vectorLength := vectorLength;
      Data := map[];
      Centroid := Zeros(vectorLength);
    }

    /** checkVectorLength: an error naming both lengths exactly when they differ. */
    function CheckVectorLength(v: Vector): (err: Option<Error>)
      ensures err.None? <==> |v| == vectorLength
      ensures err.Some? ==> err.value == VectorLengthMismatch(vectorLength, |v|)
    {
      if |v| != vectorLength then Some(VectorLengthMismatch(vectorLength, |v|)) else None
    }

    /**
     * AddMembers: the members are checked and stored in order; the first one of the wrong
     * length ends the call with its error, keeping the members stored before it and the
     * old centroid.  When all fit, the centroid is recomputed from all members.
     */
    method AddMembers(ms: seq<ClusterMember>) returns (err: Option<Error>)
      requires Valid()
      modifies this
      ensures Valid()
      ensures var k := FirstMisfit(ms, vectorLength, 0);
        && Data == Stored(old(Data), ms[..k])
        && (err.None? <==> k == |ms|)
        && (k < |ms| ==> err == Some(VectorLengthMismatch(vectorLength, |ms[k].Vector|)))
      ensures err.None? ==> Centroid == CentroidOf(Data, vectorLength)
      ensures err.Some? ==> Centroid == old(Centroid)
    {
      ghost var k := FirstMisfit(ms, vectorLength, 0);
      var data := Data;
      var i := 0;
      while i < |ms|
        invariant i <= k
        invariant data == Stored(old(Data), ms[..i])
        invariant forall id :: id in data ==> |data[id]| == vectorLength
      {
        err := CheckVectorLength(ms[i].Vector);
        if err.Some? {
          assert i == k;
          Data := data;
          return;
        }
        assert ms[..i + 1][..i] == ms[..i];
        data := data[ms[i].ID := ms[i].Vector];
        i := i + 1;
      }
      assert ms[..|ms|] == ms;
      Data := data;
      Centroid := CalculateCentroid(vectorLength, data);
      err := None;
    }

    /** AddMember: AddMembers with one member. */
    method AddMember(m: ClusterMember) returns (err: Option<Error>)
      requires Valid()
      modifies this
      ensures Valid()
      ensures err == CheckVectorLength(m.Vector)
      ensures err.None? ==> Data == old(Data)[m.ID := m.Vector] && Centroid == CentroidOf(Data, vectorLength)
      ensures err.Some? ==> Data == old(Data) && Centroid == old(Centroid)
    {
      err := AddMembers([m]);
      assert [m][..0] == [] && [m][..1] == [m];
    }

    /** Add: the vector stored as a member under the given ID. */
    method Add(v: Vector, id: string) returns (err: Option<Error>)
      requires Valid()
      modifies this
      ensures Valid()
      ensures err == CheckVectorLength(v)
      ensures err.None? ==> Data == old(Data)[id := v] && Centroid == CentroidOf(Data, vectorLength)
      ensures err.Some? ==> Data == old(Data) && Centroid == old(Centroid)
    {
      err := AddMembers([ClusterMember(id, v)]);
      assert [ClusterMember(id, v)][..0] == [] && [ClusterMember(id, v)][..1] == [ClusterMember(id, v)];
    }

    /**
     * AddRange: the vectors added one at a time under the given IDs, each addition
     * recomputing the centroid; the first vector of the wrong length ends the call with
     * its error and the members and centroid of the additions before it.
     */
    method AddRange(vs: seq<Vector>, ids: seq<string>) returns (err: Option<Error>)
      requires Valid() && |ids| == |vs|
      modifies this
      ensures Valid()
      ensures var ms := Zip(ids, vs);
        var k := FirstMisfit(ms, vectorLength, 0);
        && Data == Stored(old(Data), ms[..k])
        && (err.None? <==> k == |vs|)
        && (k < |vs| ==> err == Some(VectorLengthMismatch(vectorLength, |vs[k]|)))
        && (k > 0 ==> Centroid == CentroidOf(Data, vectorLength))
        && (k == 0 ==> Centroid == old(Centroid))
    {
      ghost var ms := Zip(ids, vs);
      ghost var k := FirstMisfit(ms, vectorLength, 0);
      var i := 0;
      while i < |vs|
        invariant i <= k
        invariant Data == Stored(old(Data), ms[..i]) && Valid()
        invariant i > 0 ==> Centroid == CentroidOf(Data, vectorLength)
        invariant i == 0 ==> Centroid == old(Centroid)
      {
        err := AddMember(ClusterMember(ids[i], vs[i]));
        if err.Some? {
          assert i == k;
          return;
        }
        StoredStep(old(Data), ms, i);
        i := i + 1;
      }
      assert ms[..|vs|] == ms;
      err := None;
    }

    /** Remove: the member with that ID deleted (nothing changes in the members when there
        is none) and the centroid recomputed. */
    method Remove(m: ClusterMember)
      requires Valid()
      modifies this
      ensures Valid()
      ensures Data == old(Data) - {m.ID}
      ensures m.ID !in old(Data) ==> Data == old(Data)
      ensures Centroid == CentroidOf(Data, vectorLength)
    {
      var data := Data - {m.ID};
      if m.ID !in Data {
        assert data == Data;
      }
      Data := data;
      Centroid := CalculateCentroid(vectorLength, data);
    }
  }

  /** The centroid of a single member is that member. */
  lemma OneMemberCentroid(id: string, v: Vector)
    ensures CentroidOf(map[id := v], |v|) == v
  {
    var data := map[id := v];
    assert data.Keys == {id};
    forall j | 0 <= j < |v|
      ensures CentroidOf(data, |v|)[j] == v[j]
    {
      KeySumRemove(data, {id}, id, j);
      assert {id} - {id} == {};
    }
  }

  /** The centroid of members that all hold v is v (cluster_test.go, all ones). */
  lemma CopiesCentroid(data: map<string, Vector>, v: Vector)
    requires |data| > 0 && forall k :: k in data ==> data[k] == v
    ensures CentroidOf(data, |v|) == v
  {
    forall j | 0 <= j < |v|
      ensures CentroidOf(data, |v|)[j] == v[j]
    {
      KeySumOfCopies(data, data.Keys, v, j);
    }
  }

  /** Summing copies of v over some keys gives the number of keys times v. */
  lemma {:induction false} KeySumOfCopies(data: map<string, Vector>, keys: set<string>, v: Vector, j: nat)
    requires keys <= data.Keys && forall k :: k in keys ==> data[k] == v
    requires j < |v|
    ensures KeySum(data, keys, j) == |keys| as real * v[j]
    decreases |keys|
  {
    if keys != {} {
      KeySumOfCopies(data, keys - {Pick(keys)}, v, j);
    }
  }

  /** The centroid of two members is their average (cluster_test.go, 1.5 on every axis). */
  lemma TwoMemberCentroid(a: string, b: string, u: Vector, w: Vector)
    requires a != b && |u| == |w|
    ensures CentroidOf(map[a := u, b := w], |u|)
         == seq(|u|, j requires 0 <= j < |u| => (u[j] + w[j]) / 2.0)
  {
    var data := map[a := u, b := w];
    assert data.Keys == {a, b} && |data| == 2;
    forall j | 0 <= j < |u|
      ensures KeySum(data, data.Keys, j) == u[j] + w[j]
    {
      KeySumRemove(data, {a, b}, a, j);
      assert {a, b} - {a} == {b};
      KeySumRemove(data, {b}, b, j);
      assert {b} - {b} == {};
    }
  }

  /** Four members, one of ones and three of threes, have a centroid of 2.5 on every axis. */
  lemma OneAmongThreeCopies(data: map<string, Vector>, a: string)
    requires a in data && |data| == 4 && data[a] == [1.0, 1.0, 1.0]
    requires forall k :: k in data && k != a ==> data[k] == [3.0, 3.0, 3.0]
    ensures CentroidOf(data, 3) == [2.5, 2.5, 2.5]
  {
    var threes: Vector := [3.0, 3.0, 3.0];
    var rest := data.Keys - {a};
    assert |rest| == 3;
    var cs := CentroidOf(data, 3);
    forall j | 0 <= j < 3
      ensures cs[j] == 2.5
    {
      KeySumRemove(data, data.Keys, a, j);
      KeySumOfCopies(data, rest, threes, j);
      assert KeySum(data, data.Keys, j) == 9.0 + 1.0;
      assert cs[j] == 10.0 / 4.0;
    }
  }

  /** cluster_test.go's mutations: member "a" of ones, then three members of threes, give
      a centroid of 2.5 on every axis. */
  lemma CentroidAfterAdditions(a: string, b: string, c: string, d: string)
    requires a != b && a != c && a != d && b != c && b != d && c != d
    ensures CentroidOf(map[a := [1.0, 1.0, 1.0], b := [3.0, 3.0, 3.0], c := [3.0, 3.0, 3.0], d := [3.0, 3.0, 3.0]], 3)
         == [2.5, 2.5, 2.5]
  {
    var data := map[a := [1.0, 1.0, 1.0], b := [3.0, 3.0, 3.0], c := [3.0, 3.0, 3.0], d := [3.0, 3.0, 3.0]];
    assert data.Keys == {a, b, c, d} && |data| == 4;
    OneAmongThreeCopies(data, a);
  }

  /** ... and removing "a" then leaves a centroid of threes. */
  lemma CentroidAfterRemoval(a: string, b: string, c: string, d: string)
    requires a != b && a != c && a != d && b != c && b != d && c != d
    ensures CentroidOf(map[a := [1.0, 1.0, 1.0], b := [3.0, 3.0, 3.0], c := [3.0, 3.0, 3.0], d := [3.0, 3.0, 3.0]] - {a}, 3)
         == [3.0, 3.0, 3.0]
  {
    var threes: Vector := [3.0, 3.0, 3.0];
    var rest := map[a := [1.0, 1.0, 1.0], b := threes, c := threes, d := threes] - {a};
    assert rest.Keys == {b, c, d} && |rest| == 3;
    CopiesCentroid(rest, threes);
  }
}
