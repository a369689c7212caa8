/** The six fields of the calculator as one value, and what each handler of
    myCalc.py does to them, stated as functions from the old value to the new. */
module CalcState {
  import opened Arithmetic

  /** The two text conversions the handlers use: `float()` of the display and
      `str()` of an accumulator. Python's number formatting is not modelled, so
      both are parameters. */
  datatype Format = Format(parse: string -> real, show: real -> string)

  datatype State = State(
    display: string,
    pendingAdditiveOperator: Op,
    pendingMultiplicativeOperator: Op,
    sumSoFar: real,
    factorSoFar: real,
    waitingForOperand: bool)

  /** The state the constructor and `clear` establish. */
  const Initial: State := State("0", None, None, 0.0, 0.0, true)

  type DigitValue = d: nat | d <= 9

  predicate IsDigit(c: char) { '0' <= c <= '9' }

  predicate IsDigits(text: string) { forall i :: 0 <= i < |text| ==> IsDigit(text[i]) }

  /** `str(digitValue)` for a digit button. */
  function DigitChar(d: DigitValue): (c: char)
    ensures IsDigit(c) && c as int - '0' as int == d
  {
    ('0' as int + d) as char
  }

  /** What every reachable state satisfies: each slot holds an operator of its own
      kind, an empty slot goes with a zero accumulator, and an operand being typed
      is a non-empty run of digits. */
  predicate Inv(s: State) {
    && (s.pendingAdditiveOperator == None || s.pendingAdditiveOperator.IsAdditive())
    && (s.pendingMultiplicativeOperator == None || s.pendingMultiplicativeOperator.IsMultiplicative())
    && (s.pendingAdditiveOperator == None ==> s.sumSoFar == 0.0)
    && (s.pendingMultiplicativeOperator == None ==> s.factorSoFar == 0.0)
    && (!s.waitingForOperand ==> |s.display| > 0 && IsDigits(s.display))
  }

  /** No operator is pending and the next digit starts a new number. */
  predicate Idle(s: State) {
    Inv(s) && s.waitingForOperand
    && s.pendingAdditiveOperator == None && s.pendingMultiplicativeOperator == None
  }

  /** Neither operator slot nor accumulator differs between `a` and `b`. */
  predicate SameArithmetic(a: State, b: State) {
    && a.pendingAdditiveOperator == b.pendingAdditiveOperator
    && a.pendingMultiplicativeOperator == b.pendingMultiplicativeOperator
    && a.sumSoFar == b.sumSoFar
    && a.factorSoFar == b.factorSoFar
  }

  /** The pending product completed with `operand`: `factorSoFar op operand`, or
      `operand` itself when no multiplicative operator is pending. */
  function TermWith(s: State, operand: real): Result<real> {
    if s.pendingMultiplicativeOperator == None then Ok(operand)
    else Apply(s.pendingMultiplicativeOperator, s.factorSoFar, operand)
  }

  /** `term` added to or subtracted from the pending sum, if there is one. */
  function AddPending(s: State, term: real): Result<real> {
    if s.pendingAdditiveOperator == None then Ok(term)
    else Apply(s.pendingAdditiveOperator, s.sumSoFar, term)
  }

  /** The whole pending expression completed with `operand`:
      `sumSoFar ± (factorSoFar ×/÷ operand)`. */
  function ValueWith(s: State, operand: real): Result<real> {
    var term :- TermWith(s, operand);
    AddPending(s, term)
  }

  /** `calculate(rightOperand, pendingOperator)`: + and - act on `sumSoFar` only,
      × and ÷ on `factorSoFar` only, and ÷ by 0.0 is refused. */
  function Calculate(s: State, rightOperand: real, pendingOperator: Op): (r: Result<State>)
    ensures r.DivisionByZero? <==> pendingOperator == Div && rightOperand == 0.0
    ensures pendingOperator.IsAdditive() ==>
      r.Ok? && r.value == s.(sumSoFar := r.value.sumSoFar)
      && Apply(pendingOperator, s.sumSoFar, rightOperand) == Ok(r.value.sumSoFar)
    ensures pendingOperator.IsMultiplicative() && r.Ok? ==>
      r.value == s.(factorSoFar := r.value.factorSoFar)
      && Apply(pendingOperator, s.factorSoFar, rightOperand) == Ok(r.value.factorSoFar)
    ensures pendingOperator == None ==> r == Ok(s)
  {
    if pendingOperator.IsAdditive() then
      Ok(s.(sumSoFar := Apply(pendingOperator, s.sumSoFar, rightOperand).value))
    else
      var factor :- Apply(pendingOperator, s.factorSoFar, rightOperand);
      Ok(s.(factorSoFar := factor))
  }

  /** `digitClicked`: a 0 on a display of exactly "0" is ignored; otherwise the
      digit starts a new operand (when one is awaited) or extends the one typed. */
  function Digit(s: State, digit: DigitValue): (r: State)
    ensures s.display == "0" && digit == 0 ==> r == s
    ensures !(s.display == "0" && digit == 0) ==>
      && !r.waitingForOperand
      && r.display == (if s.waitingForOperand then "" else s.display) + [DigitChar(digit)]
    ensures SameArithmetic(r, s)
    ensures Inv(s) ==> Inv(r)
  {
    if s.display == "0" && digit == 0 then s
    else
      var text := if s.waitingForOperand then "" else s.display;
      s.(display := text + [DigitChar(digit)], waitingForOperand := false)
  }

  /** Python's `text[:-1]`. */
  function DropLast(text: string): string {
    if |text| == 0 then text else text[..|text| - 1]
  }

  /** `delClicked`: nothing to delete while an operand is awaited; otherwise the
      last character goes, and an emptied display becomes "0" awaiting an operand. */
  function Delete(s: State): (r: State)
    ensures s.waitingForOperand ==> r == s
    ensures !s.waitingForOperand && |s.display| > 1 ==>
      r == s.(display := s.display[..|s.display| - 1])
    ensures !s.waitingForOperand && |s.display| <= 1 ==>
      r == s.(display := "0", waitingForOperand := true)
    ensures Inv(s) ==> Inv(r)
  {
    if s.waitingForOperand then s
    else
      var text := DropLast(s.display);
      if text == "" then s.(display := "0", waitingForOperand := true)
      else s.(display := text)
  }

  /** `multiplicativeOperatorClicked(op)`: the display becomes the new operand of
      the pending product, `op` becomes the pending multiplicative operator, and
      the pending sum is left alone. */
  function MultiplicativeOperator(s: State, op: Op, fmt: Format): (r: Result<State>)
    requires Inv(s) && op.IsMultiplicative()
    ensures r.DivisionByZero? <==>
      s.pendingMultiplicativeOperator == Div && fmt.parse(s.display) == 0.0
    ensures s.pendingMultiplicativeOperator == None ==>
      r == Ok(s.(factorSoFar := fmt.parse(s.display), pendingMultiplicativeOperator := op,
                 waitingForOperand := true))
    ensures r.Ok? ==>
      && r.value.pendingMultiplicativeOperator == op
      && r.value.waitingForOperand
      && r.value.sumSoFar == s.sumSoFar
      && r.value.pendingAdditiveOperator == s.pendingAdditiveOperator
      && TermWith(s, fmt.parse(s.display)) == Ok(r.value.factorSoFar)
    ensures r.Ok? && s.pendingMultiplicativeOperator != None ==>
      r.value.display == fmt.show(r.value.factorSoFar)
    ensures r.Ok? ==> Inv(r.value)
  {
    var factor :- TermWith(s, fmt.parse(s.display));
    var text := if s.pendingMultiplicativeOperator == None then s.display else fmt.show(factor);
    Ok(s.(display := text, factorSoFar := factor, pendingMultiplicativeOperator := op,
          waitingForOperand := true))
  }

  /** `additiveOperatorClicked(op)`: any pending product is resolved first, the
      result is folded into the pending sum, and `op` becomes the pending
      additive operator with an empty multiplicative slot. */
  function AdditiveOperator(s: State, op: Op, fmt: Format): (r: Result<State>)
    requires Inv(s) && op.IsAdditive()
    ensures r.DivisionByZero? <==>
      s.pendingMultiplicativeOperator == Div && fmt.parse(s.display) == 0.0
    ensures r.Ok? ==>
      && r.value.pendingMultiplicativeOperator == None
      && r.value.factorSoFar == 0.0
      && r.value.pendingAdditiveOperator == op
      && r.value.waitingForOperand
      && ValueWith(s, fmt.parse(s.display)) == Ok(r.value.sumSoFar)
    ensures r.Ok? ==>
      r.value.display ==
        if s.pendingAdditiveOperator == None && s.pendingMultiplicativeOperator == None
        then s.display else fmt.show(r.value.sumSoFar)
    ensures r.Ok? ==> Inv(r.value)
  {
    var sum :- ValueWith(s, fmt.parse(s.display));
    var text :=
      if s.pendingAdditiveOperator == None && s.pendingMultiplicativeOperator == None
      then s.display else fmt.show(sum);
    Ok(s.(display := text, pendingMultiplicativeOperator := None, factorSoFar := 0.0,
          sumSoFar := sum, pendingAdditiveOperator := op, waitingForOperand := true))
  }

  /** `equalClicked`: the whole pending expression is completed with the display
      and shown, and the calculator is left idle with both accumulators at 0.0. */
  function Equals(s: State, fmt: Format): (r: Result<State>)
    requires Inv(s)
    ensures r.DivisionByZero? <==>
      s.pendingMultiplicativeOperator == Div && fmt.parse(s.display) == 0.0
    ensures r.Ok? <==> ValueWith(s, fmt.parse(s.display)).Ok?
    ensures r.Ok? ==> Idle(r.value) && r.value.sumSoFar == 0.0 && r.value.factorSoFar == 0.0
    ensures r.Ok? ==>
      r.value == Initial.(display := fmt.show(ValueWith(s, fmt.parse(s.display)).value))
  {
    var result :- ValueWith(s, fmt.parse(s.display));
    Ok(Initial.(display := fmt.show(result)))
  }

  /** `clear`: back to the initial state, whatever the state was. */
  function Clear(s: State): (r: State)
    ensures Idle(r) && r.display == "0" && r.sumSoFar == 0.0 && r.factorSoFar == 0.0
  {
    Initial
  }

  /** Deleting right after an accepted digit takes the digit back, provided an
      operand was being typed or the display was "0". */
  lemma DeleteUndoesDigit(s: State, digit: DigitValue)
    requires Inv(s) && !(s.display == "0" && digit == 0)
    requires !s.waitingForOperand || s.display == "0"
    ensures Delete(Digit(s, digit)) == s
  {
  }

  /** Pressing `clear` twice is the same as pressing it once. */
  lemma ClearIdempotent(s: State)
    ensures Clear(Clear(s)) == Clear(s)
  {
  }
}
