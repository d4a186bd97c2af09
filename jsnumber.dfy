/** JavaScript numbers, taken as exact rationals: the result of a division
    that may be by zero, and `Math.round`. */
module JsNumber {

  /** A JavaScript number: a finite value or one of the special values an
      unguarded division produces. */
  datatype Number = Finite(value: real) | NaN | PositiveInfinity | NegativeInfinity

  /** `a / b`: 0 / 0 is NaN, x / 0 is an infinity of the sign of x. */
  function Div(a: real, b: real): (r: Number)
    ensures r.Finite? <==> b != 0.0
    ensures r.Finite? ==> r.value * b == a
    ensures r == NaN <==> a == 0.0 && b == 0.0
  {
    if b != 0.0 then Finite(a / b)
    else if a == 0.0 then NaN
    else if a > 0.0 then PositiveInfinity
    else NegativeInfinity
  }

  /** `n * k` for a positive constant `k`. */
  function Scale(n: Number, k: real): (r: Number)
    requires k > 0.0
    ensures r.Finite? <==> n.Finite?
    ensures r.Finite? ==> r.value == n.value * k
  {
    match n
    case Finite(x) => Finite(x * k)
    case _ => n
  }

  /** `Math.round(x)`: the integer nearest to `x`, halves rounded toward
      positive infinity. */
  function Round(x: real): (r: int)
    ensures x - 0.5 < r as real <= x + 0.5
  {
    (x + 0.5).Floor
  }

  /** Rounding never reverses the order of two values. */
  lemma RoundMonotone(x: real, y: real)
    requires x <= y
    ensures Round(x) <= Round(y)
  {
  }

  function Min(a: int, b: int): int { if a <= b then a else b }
}
