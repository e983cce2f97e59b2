/** Facts about Euclidean division that the modular arithmetic of the
    model (tab rotation, the 16-bit cast) rests on. */
module Arith {

  /** Euclidean remainders are unique. */
  lemma ModUnique(x: int, len: int, q: int, r: int)
    requires 0 < len && 0 <= r < len && x == q * len + r
    ensures x % len == r
  {
    var q0, r0 := x / len, x % len;
    var d := q0 - q;
    assert d * len == r - r0;
    assert d >= 1 ==> d * len >= len;
    assert d <= -1 ==> d * len <= -len;
  }
}
