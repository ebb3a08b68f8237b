/** Rounding to the nearest unit, ties to the even one, as Python's round does. */
module Rounding {

  /** The nearest integer; of two equally near ones, the even one. */
  function RoundHalfEven(x: real): int {
    var below := x.Floor;
    var rest := x - below as real;
    if rest < 0.5 then below
    else if rest > 0.5 then below + 1
    else if below % 2 == 0 then below else below + 1
  }

  /** Two decimal places, counted in hundredths. */
  function Hundredths(x: real): int {
    RoundHalfEven(100.0 * x)
  }

  /** No integer is nearer, and a tie goes to the even side: this determines the result. */
  lemma RoundsToNearest(x: real, n: int)
    ensures n == RoundHalfEven(x) <==>
      && x - 0.5 <= n as real <= x + 0.5
      && (n as real == x - 0.5 || n as real == x + 0.5 ==> n % 2 == 0)
  {
    var below := x.Floor;
    if x - 0.5 <= n as real <= x + 0.5 {
      assert n == below || n == below + 1;
    }
  }

  lemma RoundMonotone(x: real, y: real)
    requires x <= y
    ensures RoundHalfEven(x) <= RoundHalfEven(y)
  {
    assert x.Floor <= y.Floor;
  }

  lemma RoundExact(n: int)
    ensures RoundHalfEven(n as real) == n
  {
  }
}
