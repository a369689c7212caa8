/** The value an expression keyed into the calculator has under the usual rules
    (× and ÷ bind tighter than + and -, each level left to right), and the proof
    that the two-level scheme of myCalc.py displays exactly that value. */
module Precedence {
  import opened Arithmetic
  import opened CalcState
  import opened Events

  /** An expression as keyed in: a first operand, then operator and operand pairs. */
  datatype Expr<T> = Expr(first: T, rest: seq<(Operator, T)>)

  /** Folds the leading run of × and ÷ in `rest` into `acc`, left to right. */
  function Product(acc: real, rest: seq<(Operator, real)>): Result<real>
    decreases |rest|
  {
    if rest == [] || rest[0].0.IsAdditive() then Ok(acc)
    else
      var next :- Apply(rest[0].0, acc, rest[0].1);
      Product(next, rest[1..])
  }

  /** What follows the leading run of × and ÷ in `rest`. */
  function AfterProduct(rest: seq<(Operator, real)>): (r: seq<(Operator, real)>)
    ensures |r| <= |rest|
    ensures r == [] || r[0].0.IsAdditive()
    decreases |rest|
  {
    if rest == [] || rest[0].0.IsAdditive() then rest else AfterProduct(rest[1..])
  }

  /** Adds or subtracts, left to right, the products that follow each + or -. */
  function Sum(acc: real, rest: seq<(Operator, real)>): Result<real>
    requires rest == [] || rest[0].0.IsAdditive()
    decreases |rest|
  {
    if rest == [] then Ok(acc)
    else
      var term :- Product(rest[0].1, rest[1..]);
      Sum(Apply(rest[0].0, acc, term).value, AfterProduct(rest[1..]))
  }

  /** The conventional value of `e`; dividing by zero anywhere makes it fail. */
  function Eval(e: Expr<real>): Result<real> {
    var head :- Product(e.first, e.rest);
    Sum(head, AfterProduct(e.rest))
  }

  /** The value of the expression the calculator is in the middle of: its pending
      sum and product, the current operand `operand`, and the rest still to come. */
  function Resume(s: State, operand: real, rest: seq<(Operator, real)>): Result<real> {
    var head :- TermWith(s, operand);
    var term :- Product(head, rest);
    var acc :- AddPending(s, term);
    Sum(acc, AfterProduct(rest))
  }

  /** What a session ending in = leaves behind for a value: the value on the
      display of an otherwise initial calculator, or the division by zero. */
  function Displayed(v: Result<real>, fmt: Format): Result<State> {
    match v
    case DivisionByZero => DivisionByZero
    case Ok(x) => Ok(Initial.(display := fmt.show(x)))
  }

  function Parsed(rest: seq<(Operator, string)>, parse: string -> real): (r: seq<(Operator, real)>)
    ensures |r| == |rest|
  {
    if rest == [] then [] else [(rest[0].0, parse(rest[0].1))] + Parsed(rest[1..], parse)
  }

  function Values(e: Expr<string>, parse: string -> real): Expr<real> {
    Expr(parse(e.first), Parsed(e.rest, parse))
  }

  predicate WellKeyed(rest: seq<(Operator, string)>) {
    forall i :: 0 <= i < |rest| ==> Canonical(rest[i].1)
  }

  /** The presses after the first operand: each operator and its operand, then =. */
  function TailEvents(rest: seq<(Operator, string)>): seq<Event>
    requires WellKeyed(rest)
  {
    if rest == [] then [EqualKey]
    else [OperatorKey(rest[0].0)] + DigitEvents(rest[0].1) + TailEvents(rest[1..])
  }

  /** Every press of `e`, ending with =. */
  function Keystrokes(e: Expr<string>): seq<Event>
    requires Canonical(e.first) && WellKeyed(e.rest)
  {
    DigitEvents(e.first) + TailEvents(e.rest)
  }

  /** = completes the pending expression. */
  lemma EqualsCompletes(s: State, fmt: Format)
    requires Inv(s)
    ensures Run(s, [EqualKey], fmt) == Displayed(Resume(s, fmt.parse(s.display), []), fmt)
  {
  }

  /** An operator press folds the operand on the display into the pending
      expression without changing the value the whole expression will have. */
  lemma OperatorKeeps(s: State, op: Operator, y: real, rest: seq<(Operator, real)>, fmt: Format)
    requires Inv(s)
    ensures Step(s, OperatorKey(op), fmt).DivisionByZero? ==>
      Resume(s, fmt.parse(s.display), [(op, y)] + rest).DivisionByZero?
    ensures Step(s, OperatorKey(op), fmt).Ok? ==>
      Resume(Step(s, OperatorKey(op), fmt).value, y, rest)
        == Resume(s, fmt.parse(s.display), [(op, y)] + rest)
  {
  }

  /** The presses after the first operand drive the calculator to the value of the
      expression it is in the middle of. */
  lemma {:induction false} TailEvaluates(s: State, rest: seq<(Operator, string)>, fmt: Format)
    requires Inv(s) && WellKeyed(rest)
    ensures Run(s, TailEvents(rest), fmt)
      == Displayed(Resume(s, fmt.parse(s.display), Parsed(rest, fmt.parse)), fmt)
    decreases |rest|
  {
    if rest == [] {
      EqualsCompletes(s, fmt);
    } else {
      var op, text := rest[0].0, rest[0].1;
      var y := fmt.parse(text);
      var later := Parsed(rest[1..], fmt.parse);
      assert Parsed(rest, fmt.parse) == [(op, y)] + later;
      assert WellKeyed(rest[1..]) by {
        forall i | 0 <= i < |rest[1..]| ensures Canonical(rest[1..][i].1) {
          assert rest[1..][i] == rest[i + 1];
        }
      }
      assert Canonical(text) by { assert rest[0] == (op, text); }
      var tail := DigitEvents(text) + TailEvents(rest[1..]);
      assert TailEvents(rest) == [OperatorKey(op)] + tail;
      RunFirst(s, OperatorKey(op), tail, fmt);
      OperatorKeeps(s, op, y, later, fmt);
      match Step(s, OperatorKey(op), fmt)
      case DivisionByZero =>
      case Ok(next) =>
        assert next.waitingForOperand;
        RunAppend(next, DigitEvents(text), TailEvents(rest[1..]), fmt);
        EnterOperand(next, text, fmt);
        var typed := next.(display := text, waitingForOperand := next.display == "0" && text == "0");
        TailEvaluates(typed, rest[1..], fmt);
        assert Resume(typed, y, later) == Resume(next, y, later);
    }
  }

  /** The calculator evaluates with precedence: keying a whole expression and =
      from an idle calculator displays the expression's conventional value and
      leaves the calculator idle, or fails exactly when that value divides by zero. */
  lemma KeyedExpressionDisplaysValue(s: State, e: Expr<string>, fmt: Format)
    requires Idle(s) && Canonical(e.first) && WellKeyed(e.rest)
    ensures Run(s, Keystrokes(e), fmt) == Displayed(Eval(Values(e, fmt.parse)), fmt)
  {
    RunAppend(s, DigitEvents(e.first), TailEvents(e.rest), fmt);
    EnterOperand(s, e.first, fmt);
    var typed := s.(display := e.first, waitingForOperand := s.display == "0" && e.first == "0");
    TailEvaluates(typed, e.rest, fmt);
  }

  /** Keying 5 + 3 × 2 = displays 11. */
  lemma FivePlusThreeTimesTwo(fmt: Format)
    requires fmt.parse("5") == 5.0 && fmt.parse("3") == 3.0 && fmt.parse("2") == 2.0
    ensures Run(Initial, Keystrokes(Expr("5", [(Plus, "3"), (Times, "2")])), fmt)
      == Ok(Initial.(display := fmt.show(11.0)))
  {
    var e := Expr("5", [(Plus, "3"), (Times, "2")]);
    assert Canonical("5") && Canonical("3") && Canonical("2");
    KeyedExpressionDisplaysValue(Initial, e, fmt);
    var rest := [(Plus, 3.0), (Times, 2.0)];
    assert Parsed(e.rest, fmt.parse) == rest by {
      assert e.rest[1..] == [(Times, "2")];
      assert Parsed([(Times, "2")], fmt.parse) == [(Times, 2.0)];
    }
    assert rest[1..] == [(Times, 2.0)];
    assert Product(3.0, [(Times, 2.0)]) == Ok(6.0);
    assert AfterProduct([(Times, 2.0)]) == [];
    assert Eval(Expr(5.0, rest)) == Ok(11.0);
  }

  /** Keying a ÷ b = displays a / b, and fails exactly when b is zero. */
  lemma DivideThenEquals(s: State, a: string, b: string, fmt: Format)
    requires Idle(s) && Canonical(a) && Canonical(b)
    ensures Run(s, DigitEvents(a) + [OperatorKey(Div)] + DigitEvents(b) + [EqualKey], fmt)
      == if fmt.parse(b) == 0.0 then DivisionByZero
         else Ok(Initial.(display := fmt.show(fmt.parse(a) / fmt.parse(b))))
  {
    var e := Expr(a, [(Div, b)]);
    KeyedExpressionDisplaysValue(s, e, fmt);
    assert e.rest[1..] == [];
    assert TailEvents(e.rest) == [OperatorKey(Div)] + DigitEvents(b) + [EqualKey];
    assert Keystrokes(e) == DigitEvents(a) + [OperatorKey(Div)] + DigitEvents(b) + [EqualKey];
    var rest := [(Div, fmt.parse(b))];
    assert Parsed(e.rest, fmt.parse) == rest;
    assert rest[1..] == [];
    assert AfterProduct(rest) == [];
    if fmt.parse(b) != 0.0 {
      assert Product(fmt.parse(a), rest) == Ok(fmt.parse(a) / fmt.parse(b));
    }
  }
}
