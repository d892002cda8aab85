/** Real-number helpers shared by the indicator engine and the strategy:
    the absolute value and maximum of Python's `abs` and `max`. */
module Reals {

  function Abs(x: real): (r: real)
    ensures r >= 0.0 && (r == x || r == -x)
  {
    if x < 0.0 then -x else x
  }

  function Max(a: real, b: real): (m: real)
    ensures m >= a && m >= b && (m == a || m == b)
  {
    if a >= b then a else b
  }
}
