# Calculator arithmetic state machine

A Dafny model of the arithmetic core of the `Calculator` widget in `myCalc.py`. The
widget keeps six fields:

- the display text;
- a pending additive operator (+ or -) and a pending multiplicative operator (× or ÷);
- the accumulators `sumSoFar` and `factorSoFar`;
- the flag `waitingForOperand`.

Six button handlers, and the `calculate` helper they share, update these fields. The handlers give × and ÷ precedence
over + and -: a pending × or ÷ is always folded into `factorSoFar` before a pending
+ or - is folded into `sumSoFar`.

Layout:

- `arithmetic.dfy` (module `Arithmetic`): the operator slot values `None | Plus | Minus | Times | Div`, the
  `Result` of a step (`Ok` or `DivisionByZero`), and `Apply`, the arithmetic of `calculate`.
- `calc_state.dfy` (module `CalcState`): the six fields as one `State` value. It holds the invariant `Inv`
  that every reachable state satisfies, and one function per handler that says what the handler does
  to that value.
- `my_calc.dfy` (module `MyCalc`): class `Calculator` with the six fields as mutable fields. Its
  handler methods update them in place in the order the Python code does. Each method is proved to
  produce exactly the state its `CalcState` function gives, or to leave every field unchanged when it
  fails.
- `events.dfy` (module `Events`): the buttons as events and a session as a sequence of them (`Run`). It
  also proves what typing a number does to the display.
- `precedence.dfy` (module `Precedence`): `Eval`, a conventional evaluator for an expression typed as
  `n0 op1 n1 … opk nk`. × and ÷ bind tighter than + and -, and each level associates to the left. The
  main theorem says that typing such an expression, with every operand typed without leading zeros, and = on an idle calculator shows
  `show(Eval(…))` and leaves the calculator idle. The session fails exactly when `Eval` divides by zero.

The conversions `float(display)` and `str(value)` are the two function values of a `Format`
(`parse`, `show`). The class holds one as a constant. Nothing is assumed about which number
`parse` gives or which text `show` gives, so every result is stated in terms of `parse` and `show`.
`parse` is total, though: the model assumes `float()` never raises (see "Left out").

`abortOperation` is called on a failed division but is not defined anywhere in `myCalc.py`. The
model keeps only what the code guarantees. The handler stops before it has assigned any field, and
reports the failure: a `false` result in the class, `DivisionByZero` in the functions. A session
(`Run`) ends at the first failure. Nothing about what happens after the failure is invented.

Keying a ÷ 0 = does not fail at the ÷ press. That press succeeds: it stores a in `factorSoFar`
with ÷ pending (myCalc.py:125-129). The = press fails, and it leaves the state as it was just
before = (myCalc.py:161-164).

## Model

| member | source | states |
|---|---|---|
| `Arithmetic.Apply` | myCalc.py:191-203 | Only ÷ by exactly 0.0 fails. The empty slot leaves the left operand as it is. Each result is fixed by its inverse: a sum minus the addend, a difference plus the subtrahend, a product divided by a non-zero factor, and a quotient times the divisor each give back the left operand. A product with 0.0 is 0.0. |
| `CalcState.Calculate` | myCalc.py:191-203 | Fails only for ÷ with a right operand of 0.0. + and - change `sumSoFar` and nothing else. × and ÷ change `factorSoFar` and nothing else. An empty slot changes nothing. |
| `CalcState.Digit` | myCalc.py:85-96 | A 0 pressed on a display of exactly "0" changes nothing. Otherwise the digit replaces the display when an operand is awaited and is appended to it when not, and the flag ends false. Operators and accumulators are untouched, and `Inv` is preserved. |
| `CalcState.Delete` | myCalc.py:103-112 | Does nothing while an operand is awaited. Otherwise it drops the last character. A display left empty becomes "0" and awaits an operand. `Inv` is preserved. |
| `CalcState.MultiplicativeOperator` | myCalc.py:114-129 | Fails exactly when the pending operator is ÷ and the display parses to 0. With nothing pending, `factorSoFar` becomes the operand. Otherwise it becomes the pending product completed with the operand and is displayed. The clicked operator becomes pending and an operand is awaited. The sum and the additive slot are untouched, and `Inv` is preserved. |
| `CalcState.AdditiveOperator` | myCalc.py:131-156 | Fails exactly when the pending operator is ÷ and the display parses to 0. On success, `sumSoFar` holds the whole pending expression completed with the operand. The multiplicative slot is empty and `factorSoFar == 0.0`. The clicked operator is pending and an operand is awaited. The display shows the new sum unless nothing was pending, and `Inv` is preserved. |
| `CalcState.Equals` | myCalc.py:158-181 | Fails exactly when a pending ÷ meets a zero operand. On success the display shows the pending expression completed with the operand, for example `show(sum ± (factor ×/÷ operand))` when both slots are occupied. Both slots are empty, both accumulators are 0.0, and an operand is awaited. |
| `CalcState.Clear` | myCalc.py:183-189 | From any state the result is idle: display "0", both slots empty, both accumulators 0.0, waiting for an operand. |
| `CalcState.DeleteUndoesDigit` | myCalc.py:85-112 | Del right after an accepted digit restores the state before the digit, when an operand was being typed or the display was "0". A digit that replaced another display (for example "5" after 5 +) is not undone: Del then leaves "0". |
| `CalcState.ClearIdempotent` | myCalc.py:183-189 | Clearing twice is clearing once. |
| `MyCalc.Calculator.constructor` | myCalc.py:27-35 | The six fields start in the initial state, which satisfies the invariant. |
| `MyCalc.Calculator.DigitClicked` | myCalc.py:85-96 | The fields change exactly as `CalcState.Digit` says, and the invariant is kept. |
| `MyCalc.Calculator.DelClicked` | myCalc.py:103-112 | The fields change exactly as `CalcState.Delete` says, and the invariant is kept. |
| `MyCalc.Calculator.Calculate` | myCalc.py:191-203 | Returns false only for ÷ by 0.0, and then no field has changed. Otherwise the fields are those of `CalcState.Calculate`. |
| `MyCalc.Calculator.MultiplicativeOperatorClicked` | myCalc.py:114-129 | A ÷0 failure leaves all six fields unchanged, because the failing `calculate` runs before any assignment. On success the fields are those of `CalcState.MultiplicativeOperator`, and the invariant is kept. |
| `MyCalc.Calculator.AdditiveOperatorClicked` | myCalc.py:131-156 | A ÷0 failure leaves all six fields unchanged. The second `calculate` (+ or -) never fails. On success the fields are those of `CalcState.AdditiveOperator`, and the invariant is kept. |
| `MyCalc.Calculator.EqualClicked` | myCalc.py:158-181 | A ÷0 failure leaves all six fields unchanged. On success the fields are those of `CalcState.Equals`, and the invariant is kept. |
| `MyCalc.Calculator.Clear` | myCalc.py:183-189 | Whatever the state was, the fields are the initial state. |
| `MyCalc.ExampleSession` | myCalc.py:114-181 | On a new calculator, pressing 5 + 3 × 2 = displays `show(11.0)`. |
| `Events.Step` | myCalc.py:48-60 | Each button runs its handler. Within the model, only an operator or = can fail, and only on a pending ÷ with a zero operand. Every successful press keeps `Inv`. |
| `Events.Run` | myCalc.py:27-35 | `Inv`, which holds from construction, holds after every successful session. |
| `Events.AppendDigits` | myCalc.py:89-96 | Digits typed onto an operand being entered, other than "0", are appended to the display, and nothing else changes. On an operand of "0" a further 0 is ignored, so the lemma excludes that case. |
| `Events.EnterOperand` | myCalc.py:89-96 | Typing a number without leading zeros while an operand is awaited leaves exactly that number on the display and leaves operators and accumulators alone. This includes the case of "0" typed on a display of "0". |
| `Events.ClearTwice` | myCalc.py:183-189 | From any state, pressing C twice gives the same result as pressing it once: the initial state. |
| `Precedence.EqualsCompletes` | myCalc.py:158-181 | Pressing = yields the value of the pending expression completed with the displayed operand. |
| `Precedence.OperatorKeeps` | myCalc.py:114-156 | An operator press does not change the value the whole expression will have, and it fails only when that value divides by zero. |
| `Precedence.TailEvaluates` | myCalc.py:114-181 | From any reachable state, the operators, operands and final = drive the calculator to the value of the expression it is in the middle of. |
| `Precedence.KeyedExpressionDisplaysValue` | myCalc.py:114-181 | Typing `n0 op1 n1 … =`, with every operand typed without leading zeros, on an idle calculator ends idle, showing `show(Eval(…))` with the usual precedence. It fails exactly when `Eval` divides by zero. |
| `Precedence.FivePlusThreeTimesTwo` | myCalc.py:114-181 | Typing 5 + 3 × 2 = from the initial state displays `show(11.0)`. |
| `Precedence.DivideThenEquals` | myCalc.py:114-181 | Typing a ÷ b = displays `show(a / b)` when b is not zero, and fails when it is. |

## Left out

- `Arithmetic.Apply`: computes on real numbers, not on 64-bit floats, so rounding, overflow to infinity and NaN are not modelled. The only numeric test the code makes is the comparison with 0.0.
- `float()` parsing and `str()` formatting are the `parse` and `show` parameters rather than Python's library functions. Nothing is assumed about their values, so for example `show(11.0)` is not claimed to be "11.0".
- `float()` raising `ValueError` (myCalc.py:117, 134, 159) is not modelled: `parse` is total. In the program, the 15-character limit set at myCalc.py:38 can cut a shown result inside its exponent. For example "1.23456789012e+21" would become "1.23456789012e+", and the next operator or = press would then raise in `float()`.
- `Events.Step`: "only a pending ÷ with a zero operand fails" holds within the model. The program can also fail in `float()` on a cut display, as described in the line above.
- The effect of `abortOperation`: it is not defined in `myCalc.py`. The model only stops the handler and reports the failure, and a session stops there.
- Which button sent a click (`self.sender().text()`): the digit and the operator are explicit parameters. The button wiring is the `Events.Event` dispatch.
- Widget construction is not modelled, because it is toolkit calls with nothing to verify. This covers the `Button` class and its size hint, fonts, alignment, the grid layout, `createButton` and the application main block.
- The 15-character limit on the display: the line-edit widget enforces it, not the calculator code.
- `PyQt_SetTimeInStatusbar.py`: it reads the system clock and writes it to a status bar, with no logic of its own.
