/**
 * JavaScript numbers as far as the turtle's bounds check depends on them: a finite value, one of
 * the two infinities, or NaN. Finite arithmetic is exact here; the rounding and overflow of
 * doubles are not modelled, only how the non-finite values propagate and compare.
 */
module JsNumber {

  datatype Num = Fin(r: real) | PosInf | NegInf | NaN

  /** `a + b` */
  function Add(a: Num, b: Num): (c: Num)
    ensures c.NaN? <==> a.NaN? || b.NaN? || (a.PosInf? && b.NegInf?) || (a.NegInf? && b.PosInf?)
    ensures a.Fin? && b.Fin? ==> c == Fin(a.r + b.r)
    ensures c.Fin? ==> a.Fin? && b.Fin?
  {
    match (a, b)
    case (NaN, _) => NaN
    case (_, NaN) => NaN
    case (PosInf, NegInf) => NaN
    case (NegInf, PosInf) => NaN
    case (PosInf, _) => PosInf
    case (NegInf, _) => NegInf
    case (_, PosInf) => PosInf
    case (_, NegInf) => NegInf
    case (Fin(x), Fin(y)) => Fin(x + y)
  }

  /** Unary `-a` */
  function Neg(a: Num): Num {
    match a
    case Fin(x) => Fin(-x)
    case PosInf => NegInf
    case NegInf => PosInf
    case NaN => NaN
  }

  /** `a - b` */
  function Sub(a: Num, b: Num): Num {
    Add(a, Neg(b))
  }

  /** `a * b`: an infinity times zero is NaN; otherwise the sign rule decides the infinity. */
  function Mul(a: Num, b: Num): (c: Num)
    ensures a.NaN? || b.NaN? ==> c.NaN?
    ensures a.Fin? && b.Fin? ==> c == Fin(a.r * b.r)
    ensures c.Fin? ==> a.Fin? && b.Fin?
  {
    if a.Fin? && b.Fin? then Fin(a.r * b.r)
    else match (a, b)
    case (NaN, _) => NaN
    case (_, NaN) => NaN
    case (Fin(x), _) => if x == 0.0 then NaN else if (x > 0.0) == b.PosInf? then PosInf else NegInf
    case (_, Fin(y)) => if y == 0.0 then NaN else if (y > 0.0) == a.PosInf? then PosInf else NegInf
    case (_, _) => if a == b then PosInf else NegInf
  }

  /** `a < b`: false whenever either side is NaN; the infinities lie beyond every finite value. */
  predicate Less(a: Num, b: Num)
    ensures Less(a, b) ==> !a.NaN? && !b.NaN?
    ensures a.Fin? && b.Fin? ==> (Less(a, b) <==> a.r < b.r)
  {
    match (a, b)
    case (Fin(x), Fin(y)) => x < y
    case (NegInf, Fin(_)) => true
    case (NegInf, PosInf) => true
    case (Fin(_), PosInf) => true
    case (_, _) => false
  }

  /** `a || 0`: NaN and 0 are falsy and give 0; every other number is kept. */
  function OrZero(a: Num): (c: Num)
    ensures !c.NaN?
    ensures a.NaN? || a == Fin(0.0) ==> c == Fin(0.0)
    ensures !a.NaN? ==> c == a
  {
    if a.NaN? || a == Fin(0.0) then Fin(0.0) else a
  }

  /** Addition and multiplication commute, NaN and the infinities included. */
  lemma AddMulCommute(a: Num, b: Num)
    ensures Add(a, b) == Add(b, a)
    ensures Mul(a, b) == Mul(b, a)
  {
  }

  /** `<` is a strict order on the numbers other than NaN, and NaN is unordered with everything. */
  lemma LessOrder(a: Num, b: Num, c: Num)
    ensures !Less(a, a)
    ensures Less(a, b) ==> !Less(b, a)
    ensures Less(a, b) && Less(b, c) ==> Less(a, c)
    ensures !a.NaN? && !b.NaN? ==> Less(a, b) || a == b || Less(b, a)
    ensures !Less(NaN, a) && !Less(a, NaN)
  {
  }
}
