/** The few functions of Go's math package that the controller uses, over
    mathematical reals instead of IEEE-754 doubles. Floor and Ceil return the
    integer they denote; Go returns it as a float64. */
module GoMath {

  /** math.Abs */
  function Abs(x: real): (r: real)
    ensures r >= 0.0
    ensures r == x || r == -x
  {
    if x < 0.0 then -x else x
  }

  /** math.Floor: the greatest integer not above x. */
  function Floor(x: real): (r: int)
    ensures r as real <= x < r as real + 1.0
  {
    x.Floor
  }

  /** math.Ceil: the least integer not below x. */
  function Ceil(x: real): (r: int)
    ensures x <= r as real < x + 1.0
  {
    -((-x).Floor)
  }

  /** math.Modf: splits x into an integer part and a fractional part that
      add up to x; both carry the sign of x, so the integer part is x
      truncated toward zero. */
  function Modf(x: real): (r: (int, real))
    ensures r.0 as real + r.1 == x
    ensures 0.0 <= x ==> 0.0 <= r.1 < 1.0
    ensures x < 0.0 ==> -1.0 < r.1 <= 0.0
  {
    var whole := if x >= 0.0 then Floor(x) else Ceil(x);
    (whole, x - whole as real)
  }
}
