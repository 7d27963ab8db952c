/** Python's `round(x, 2)`, taken on the exact value of `x`. */
module Rounding {

  /** The integer nearest to `x`, ties going to the even neighbour (Python's rounding rule). */
  function RoundHalfEven(x: real): (n: int)
    ensures x - 0.5 <= n as real <= x + 0.5
    ensures n as real == x <==> x == x.Floor as real
  {
    var f := x.Floor;
    var frac := x - f as real;
    if frac < 0.5 then f
    else if frac > 0.5 then f + 1
    else if f % 2 == 0 then f
    else f + 1
  }

  /** `round(x, 2)`: the nearest multiple of 0.01, ties to even. */
  function Round2(x: real): (r: real)
    ensures x - 0.005 <= r <= x + 0.005
    ensures 0.0 <= x ==> 0.0 <= r
    ensures 0.0 <= x <= 100.0 ==> 0.0 <= r <= 100.0
    ensures x == 0.0 ==> r == 0.0
  {
    var n := RoundHalfEven(x * 100.0);
    assert 0.0 <= x <= 100.0 ==> 0 <= n <= 10000;
    n as real / 100.0
  }

  /** A value that already has two decimals is left as it is. */
  lemma Round2OfHundredths(k: int)
    ensures Round2(k as real / 100.0) == k as real / 100.0
  {
    var x := k as real / 100.0;
    assert x * 100.0 == k as real;
    assert (k as real).Floor == k;
  }
}
