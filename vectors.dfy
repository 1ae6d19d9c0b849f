/** clustering/vector.go: the Vector type and its equality. */
module Vectors {
  import ArrayEqual

  /** clustering.Vector: a slice of float64. */
  type Vector = seq<real>

  /** Vector.Eq: different lengths are never equal; otherwise equal when no position differs. */
  function Eq(v1: Vector, v2: Vector): (r: bool)
    ensures r <==> |v1| == |v2| && forall i :: 0 <= i < |v1| ==> v1[i] == v2[i]
    ensures r <==> v1 == v2
  {
    |v1| == |v2| && FirstDifference(v1, v2, 0) == |v1|
  }

  /** Where the scan from position i returns early: the first index at or after i whose
      components differ, or the length when there is none. */
  function FirstDifference(v1: Vector, v2: Vector, i: nat): (k: nat)
    requires |v1| == |v2| && i <= |v1|
    ensures i <= k <= |v1|
    ensures forall j :: i <= j < k ==> v1[j] == v2[j]
    ensures k < |v1| ==> v1[k] != v2[k]
    decreases |v1| - i
  {
    if i == |v1| then i
    else if v1[i] != v2[i] then i
    else FirstDifference(v1, v2, i + 1)
  }

  /** Eq is symmetric, two empty vectors are equal, and it agrees with array.EqFloat64. */
  lemma EqProperties(v1: Vector, v2: Vector)
    ensures Eq(v1, v2) == Eq(v2, v1)
    ensures Eq([], [])
    ensures |v1| != |v2| ==> !Eq(v1, v2)
    ensures Eq(v1, v2) == ArrayEqual.EqFloat64(v1, v2)
  {
  }
}
