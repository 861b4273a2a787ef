/** `decimal_precision_decorator` (main.py:59-63): `round(result, 2)`.
    Python rounds to the nearest value with two decimals and breaks ties to
    the even last digit; here the rule is applied to the exact real. */
module Rounding {

  /** `x` has at most two decimals. */
  predicate IsCents(x: real)
  {
    (x * 100.0).Floor as real == x * 100.0
  }

  /** The integer nearest to `y`; of two equally near, the even one. */
  function RoundHalfEven(y: real): (n: int)
    ensures -0.5 <= n as real - y <= 0.5
    ensures (n as real - y == 0.5 || y - n as real == 0.5) ==> n % 2 == 0
  {
    var f := y.Floor;
    var d := y - f as real;
    if d < 0.5 then f
    else if d > 0.5 then f + 1
    else if f % 2 == 0 then f
    else f + 1
  }

  /** A whole number of cents has two decimals. */
  lemma WholeCents(n: int)
    ensures (n as real / 100.0) * 100.0 == n as real
    ensures IsCents(n as real / 100.0)
  {
    assert (n as real / 100.0) * 100.0 == n as real;
  }

  /** Scaling cents back to units keeps the distance within half a cent. */
  lemma CentDistance(n: int, x: real)
    requires -0.5 <= n as real - x * 100.0 <= 0.5
    ensures -0.005 <= n as real / 100.0 - x <= 0.005
  {
    assert n as real / 100.0 - x == (n as real - x * 100.0) / 100.0;
  }

  /** A value that already has two decimals is its own nearest cent. */
  lemma ExactCents(x: real)
    ensures IsCents(x) ==> RoundHalfEven(x * 100.0) as real / 100.0 == x
  {
    if IsCents(x) {
      var m := (x * 100.0).Floor;
      assert RoundHalfEven(x * 100.0) == m;
      assert m as real / 100.0 == (x * 100.0) / 100.0 == x;
    }
  }

  /** `round(x, 2)`: a value with two decimals, at most half a cent from
      `x`, and `x` itself when it already has two decimals. */
  function Round2(x: real): (r: real)
    ensures IsCents(r)
    ensures -0.005 <= r - x <= 0.005
    ensures IsCents(x) ==> r == x
  {
    var n := RoundHalfEven(x * 100.0);
    WholeCents(n);
    CentDistance(n, x);
    ExactCents(x);
    n as real / 100.0
  }

}
