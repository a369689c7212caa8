/** The `Calculator` widget of myCalc.py without its widgets: the six fields the
    button handlers update in place, and the handlers themselves. */
module MyCalc {
  import opened Arithmetic
  import opened CalcState

  class Calculator {
    /** `float()` and `str()` as the handlers use them. */
    const fmt: Format

    var display: string
    var pendingAdditiveOperator: Op
    var pendingMultiplicativeOperator: Op
    var sumSoFar: real
    var factorSoFar: real
    var waitingForOperand: bool

    /** The six fields as one value. */
    function Snapshot(): State
      reads this
    {
      State(display, pendingAdditiveOperator, pendingMultiplicativeOperator,
            sumSoFar, factorSoFar, waitingForOperand)
    }

    ghost predicate Valid()
      reads this
    {
      Inv(Snapshot())
    }

    constructor (fmt: Format)
      ensures Valid() && this.fmt == fmt
      ensures Snapshot() == Initial
    {
      this.fmt := fmt;
      pendingAdditiveOperator := None;
      pendingMultiplicativeOperator := None;
      sumSoFar := 0.0;
      factorSoFar := 0.0;
      waitingForOperand := true;
      display := "0";
    }

    method DigitClicked(digit: DigitValue)
      requires Valid()
      modifies this
      ensures Valid()
      ensures Snapshot() == Digit(old(Snapshot()), digit)
    {
      if display == "0" && digit == 0 {
        return;
      }
      if waitingForOperand {
        display := "";
        waitingForOperand := false;
      }
      display := display + [DigitChar(digit)];
    }

    method DelClicked()
      requires Valid()
      modifies this
      ensures Valid()
      ensures Snapshot() == Delete(old(Snapshot()))
    {
      if waitingForOperand {
        return;
      }
      var text := DropLast(display);
      if text == "" {
        text := "0";
        waitingForOperand := true;
      }
      display := text;
    }

    /** Applies one pending operator; `ok` is false, and nothing has changed, only
        for ÷ by 0.0. */
    method Calculate(rightOperand: real, pendingOperator: Op) returns (ok: bool)
      modifies this
      ensures ok == CalcState.Calculate(old(Snapshot()), rightOperand, pendingOperator).Ok?
      ensures ok ==> Snapshot() == CalcState.Calculate(old(Snapshot()), rightOperand, pendingOperator).value
      ensures !ok ==> Snapshot() == old(Snapshot())
    {
      if pendingOperator == Plus {
        sumSoFar := sumSoFar + rightOperand;
      } else if pendingOperator == Minus {
        sumSoFar := sumSoFar - rightOperand;
      } else if pendingOperator == Times {
        factorSoFar := factorSoFar * rightOperand;
      } else if pendingOperator == Div {
        if rightOperand == 0.0 {
          return false;
        }
        factorSoFar := factorSoFar / rightOperand;
      }
      return true;
    }

    /** `ok` is false when the pending ÷ meets a zero operand; the handler then
        stops before assigning anything. */
    method MultiplicativeOperatorClicked(clickedOperator: Op) returns (ok: bool)
      requires Valid() && clickedOperator.IsMultiplicative()
      modifies this
      ensures Valid()
      ensures ok == MultiplicativeOperator(old(Snapshot()), clickedOperator, fmt).Ok?
      ensures ok ==> Snapshot() == MultiplicativeOperator(old(Snapshot()), clickedOperator, fmt).value
      ensures !ok ==> Snapshot() == old(Snapshot())
    {
      var operand := fmt.parse(display);
      if pendingMultiplicativeOperator != None {
        ok := Calculate(operand, pendingMultiplicativeOperator);
        if !ok {
          return;
        }
        display := fmt.show(factorSoFar);
      } else {
        factorSoFar := operand;
      }
      pendingMultiplicativeOperator := clickedOperator;
      waitingForOperand := true;
      ok := true;
    }

    method AdditiveOperatorClicked(clickedOperator: Op) returns (ok: bool)
      requires Valid() && clickedOperator.IsAdditive()
      modifies this
      ensures Valid()
      ensures ok == AdditiveOperator(old(Snapshot()), clickedOperator, fmt).Ok?
      ensures ok ==> Snapshot() == AdditiveOperator(old(Snapshot()), clickedOperator, fmt).value
      ensures !ok ==> Snapshot() == old(Snapshot())
    {
      var operand := fmt.parse(display);
      if pendingMultiplicativeOperator != None {
        ok := Calculate(operand, pendingMultiplicativeOperator);
        if !ok {
          return;
        }
        display := fmt.show(factorSoFar);
        operand := factorSoFar;
        factorSoFar := 0.0;
        pendingMultiplicativeOperator := None;
      }
      if pendingAdditiveOperator != None {
        ok := Calculate(operand, pendingAdditiveOperator);
        if !ok {
          // + and - never fail, so this abort cannot be reached
          assert false;
        }
        display := fmt.show(sumSoFar);
      } else {
        sumSoFar := operand;
      }
      pendingAdditiveOperator := clickedOperator;
      waitingForOperand := true;
      ok := true;
    }

    method EqualClicked() returns (ok: bool)
      requires Valid()
      modifies this
      ensures Valid()
      ensures ok == Equals(old(Snapshot()), fmt).Ok?
      ensures ok ==> Snapshot() == Equals(old(Snapshot()), fmt).value
      ensures !ok ==> Snapshot() == old(Snapshot())
    {
      var operand := fmt.parse(display);
      if pendingMultiplicativeOperator != None {
        ok := Calculate(operand, pendingMultiplicativeOperator);
        if !ok {
          return;
        }
        operand := factorSoFar;
        factorSoFar := 0.0;
        pendingMultiplicativeOperator := None;
      }
      if pendingAdditiveOperator != None {
        ok := Calculate(operand, pendingAdditiveOperator);
        if !ok {
          // + and - never fail, so this abort cannot be reached
          assert false;
        }
        pendingAdditiveOperator := None;
      } else {
        sumSoFar := operand;
      }
      display := fmt.show(sumSoFar);
      sumSoFar := 0.0;
      waitingForOperand := true;
      ok := true;
    }

    method Clear()
      modifies this
      ensures Valid()
      ensures Snapshot() == CalcState.Clear(old(Snapshot()))
    {
      sumSoFar := 0.0;
      factorSoFar := 0.0;
      pendingAdditiveOperator := None;
      pendingMultiplicativeOperator := None;
      display := "0";
      waitingForOperand := true;
    }
  }

  /** The session 5 + 3 × 2 = on a fresh calculator shows 11. */
  method ExampleSession(fmt: Format) returns (shown: string)
    requires fmt.parse("5") == 5.0 && fmt.parse("3") == 3.0 && fmt.parse("2") == 2.0
    ensures shown == fmt.show(11.0)
  {
    var calculator := new Calculator(fmt);
    calculator.DigitClicked(5);
    assert calculator.display == "5";
    var ok := calculator.AdditiveOperatorClicked(Plus);
    assert calculator.sumSoFar == 5.0;
    calculator.DigitClicked(3);
    assert calculator.display == "3";
    ok := calculator.MultiplicativeOperatorClicked(Times);
    assert calculator.factorSoFar == 3.0;
    calculator.DigitClicked(2);
    assert calculator.display == "2";
    ok := calculator.EqualClicked();
    shown := calculator.display;
  }
}
