/** The numbers a series cell can hold.

    A cell is a float without its rounding: an exact real, one of the two infinities, or NaN.
    Comparisons with NaN are false and arithmetic with NaN is NaN, as NumPy has it.
    The sign of a zero is not modelled, so dividing a nonzero number by zero gives the infinity
    of the numerator's sign.
  */
module Num {

  datatype Num = NaN | NegInf | PosInf | Fin(v: real)

  const ZERO := Fin(0.0)

  function Infinity(positive: bool): Num {
    if positive then PosInf else NegInf
  }

  function Neg(a: Num): Num {
    match a
    case NaN => NaN
    case NegInf => PosInf
    case PosInf => NegInf
    case Fin(x) => Fin(-x)
  }

  function Add(a: Num, b: Num): Num {
    match (a, b)
    case (NaN, _) => NaN
    case (_, NaN) => NaN
    case (Fin(x), Fin(y)) => Fin(x + y)
    case (Fin(_), _) => b
    case (_, Fin(_)) => a
    case (_, _) => if a == b then a else NaN
  }

  function Sub(a: Num, b: Num): Num {
    Add(a, Neg(b))
  }

  predicate Positive(a: Num) {
    a.PosInf? || (a.Fin? && a.v > 0.0)
  }

  predicate IsZero(a: Num) {
    a == ZERO
  }

  function Mul(a: Num, b: Num): Num {
    if a.NaN? || b.NaN? then NaN
    else if a.Fin? && b.Fin? then Fin(a.v * b.v)
    else if IsZero(a) || IsZero(b) then NaN
    else Infinity(Positive(a) == Positive(b))
  }

  function Div(a: Num, b: Num): Num {
    if a.NaN? || b.NaN? then NaN
    else if b.Fin? then
      if b.v != 0.0 then
        (if a.Fin? then Fin(a.v / b.v) else Infinity(Positive(a) == Positive(b)))
      else if IsZero(a) then NaN
      else Infinity(Positive(a))
    else if a.Fin? then ZERO
    else NaN
  }

  /** The remainder with the sign of the divisor. */
  function Mod(a: Num, b: Num): Num {
    match (a, b)
    case (Fin(x), Fin(y)) => if y == 0.0 then NaN else Fin(x - y * (x / y).Floor as real)
    case (Fin(x), PosInf) => if x >= 0.0 then a else PosInf
    case (Fin(x), NegInf) => if x <= 0.0 then a else NegInf
    case (_, _) => NaN
  }

  predicate Lt(a: Num, b: Num) {
    match (a, b)
    case (NaN, _) => false
    case (_, NaN) => false
    case (Fin(x), Fin(y)) => x < y
    case (NegInf, _) => !b.NegInf?
    case (_, PosInf) => !a.PosInf?
    case (_, _) => false
  }

  predicate Eq(a: Num, b: Num) {
    !a.NaN? && a == b
  }

  predicate Le(a: Num, b: Num) {
    Lt(a, b) || Eq(a, b)
  }

  function Abs(a: Num): Num {
    match a
    case Fin(x) => Fin(if x < 0.0 then -x else x)
    case NegInf => PosInf
    case _ => a
  }

  function Max(a: Num, b: Num): Num {
    if a.NaN? || b.NaN? then NaN else if Lt(a, b) then b else a
  }

  function Min(a: Num, b: Num): Num {
    if a.NaN? || b.NaN? then NaN else if Lt(b, a) then b else a
  }

  /** Strict order is transitive and irreflexive, NaN included. */
  lemma LtTransitive(a: Num, b: Num, c: Num)
    requires Lt(a, b) && Lt(b, c)
    ensures Lt(a, c) && !Lt(c, a) && a != c
  {
  }
}
