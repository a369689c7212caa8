/** The four operators of the calculator (myCalc.py) and what each does to a number. */
module Arithmetic {

  /** The content of an operator slot: `None` is the empty string the calculator
      keeps when nothing is pending; the others are the four operator buttons. */
  datatype Op = None | Plus | Minus | Times | Div {
    predicate IsAdditive() { this == Plus || this == Minus }
    predicate IsMultiplicative() { this == Times || this == Div }
  }

  /** An operator a button can send: every slot value but the empty one. */
  type Operator = op: Op | op != None witness Plus

  /** The outcome of a step that can meet the calculator's one error. */
  datatype Result<T> = Ok(value: T) | DivisionByZero {
    predicate IsFailure() { DivisionByZero? }

    function PropagateFailure<U>(): Result<U>
      requires IsFailure()
    {
      DivisionByZero
    }

    function Extract(): T
      requires Ok?
    {
      value
    }
  }

  /** `left op right`, the arithmetic of `calculate`: the empty slot leaves `left`
      as it is, and dividing by exactly 0.0 is the only failure. */
  function Apply(op: Op, left: real, right: real): (r: Result<real>)
    ensures r.DivisionByZero? <==> op == Div && right == 0.0
    ensures op == None ==> r == Ok(left)
    ensures op == Div && r.Ok? ==> r.value * right == left
    ensures op == Minus ==> r.value + right == left
    ensures op == Plus ==> r.value - right == left
    ensures op == Times ==> r.Ok? && (right != 0.0 ==> r.value / right == left) && (right == 0.0 ==> r.value == 0.0)
  {
    match op
    case None => Ok(left)
    case Plus => Ok(left + right)
    case Minus => Ok(left - right)
    case Times => ProductOverFactor(left, right); Ok(left * right)
    case Div => if right == 0.0 then DivisionByZero else Ok(left / right)
  }

  /** Dividing a product by a non-zero factor gives back the other factor. */
  lemma ProductOverFactor(left: real, right: real)
    ensures right != 0.0 ==> (left * right) / right == left
    ensures right == 0.0 ==> left * right == 0.0
  {
    if right != 0.0 {
      assert (left * right) / right == left * (right / right);
    }
  }
}
