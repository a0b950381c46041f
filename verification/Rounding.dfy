/** Python's rounding of exact reals: to the nearest integer, a tie to the even one. */
module Rounding {

  function RoundInt(x: real): int {
    var whole := x.Floor;
    var part := x - whole as real;
    if part < 0.5 then whole else if part > 0.5 then whole + 1 else if whole % 2 == 0 then whole else whole + 1
  }

  lemma {:induction false} RoundIntMonotone(x: real, y: real)
    requires x <= y
    ensures RoundInt(x) <= RoundInt(y)
  {
    assert x.Floor <= y.Floor;
    if x.Floor == y.Floor {
      assert x - x.Floor as real <= y - y.Floor as real;
    }
  }
}
