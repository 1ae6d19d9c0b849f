/** array/equal.go: element-wise equality of two float64 slices. */
module ArrayEqual {

  /** EqFloat64: false on different lengths, otherwise a left-to-right scan that stops at the first difference. */
  function EqFloat64(v1: seq<real>, v2: seq<real>): (r: bool)
    ensures r <==> |v1| == |v2| && forall i :: 0 <= i < |v1| ==> v1[i] == v2[i]
  {
    |v1| == |v2| && EqualFrom(v1, v2, 0)
  }

  /** The scan from position i onwards. */
  function EqualFrom(v1: seq<real>, v2: seq<real>, i: nat): (r: bool)
    requires |v1| == |v2| && i <= |v1|
    ensures r <==> forall k :: i <= k < |v1| ==> v1[k] == v2[k]
    decreases |v1| - i
  {
    i == |v1| || (v1[i] == v2[i] && EqualFrom(v1, v2, i + 1))
  }

  /** Over the reals, EqFloat64 is exactly sequence equality; hence symmetric, and true of two empty slices. */
  lemma EqFloat64IsEquality(v1: seq<real>, v2: seq<real>)
    ensures EqFloat64(v1, v2) <==> v1 == v2
    ensures EqFloat64(v1, v2) == EqFloat64(v2, v1)
    ensures EqFloat64([], [])
  {
    if EqFloat64(v1, v2) {
      assert v1 == v2;
    }
  }
}
