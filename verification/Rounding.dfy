// Python's `abs` and `round` on exact ratios.
module Rounding {
  function Abs(x: real): real { if x < 0.0 then -x else x }

  // To the nearest integer, ties to the even one.
  function RoundHalfEven(x: real): int {
    var down := x.Floor;
    var rest := x - down as real;
    if rest < 0.5 || (rest == 0.5 && down % 2 == 0) then down else down + 1
  }

  lemma {:induction false} RoundIsNearest(x: real, n: int)
    ensures Abs(RoundHalfEven(x) as real - x) <= Abs(n as real - x)
  {
    if n <= x.Floor {
      assert n as real <= x.Floor as real;
    } else {
      assert n as real >= x.Floor as real + 1.0;
    }
  }

  lemma {:induction false} RoundIsMonotone(x: real, y: real)
    requires x <= y
    ensures RoundHalfEven(x) <= RoundHalfEven(y)
  {
    if x.Floor < y.Floor { assert x.Floor as real + 1.0 <= y.Floor as real; }
  }

  lemma {:induction false} RoundIsClose(x: real)
    ensures x - 0.5 <= RoundHalfEven(x) as real <= x + 0.5
  {
  }
}
