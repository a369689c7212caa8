/** The buttons of the calculator as events, and a session as a sequence of them.
    Each button is wired to one handler (myCalc.py:48-60): a digit button to
    `digitClicked`, + and - to `additiveOperatorClicked`, × and ÷ to
    `multiplicativeOperatorClicked`, and =, C and Del to their own handlers. */
module Events {
  import opened Arithmetic
  import opened CalcState

  datatype Event = DigitKey(digit: DigitValue) | OperatorKey(op: Operator) | EqualKey | ClearKey | DelKey

  /** One button press. */
  function Step(s: State, e: Event, fmt: Format): (r: Result<State>)
    requires Inv(s)
    ensures r.DivisionByZero? ==>
      (e.OperatorKey? || e.EqualKey?) && s.pendingMultiplicativeOperator == Div
      && fmt.parse(s.display) == 0.0
    ensures r.Ok? ==> Inv(r.value)
  {
    match e
    case DigitKey(d) => Ok(Digit(s, d))
    case OperatorKey(op) =>
      if op.IsAdditive() then AdditiveOperator(s, op, fmt) else MultiplicativeOperator(s, op, fmt)
    case EqualKey => Equals(s, fmt)
    case ClearKey => Ok(Clear(s))
    case DelKey => Ok(Delete(s))
  }

  /** The presses of `events` one after the other. The failed handler's
      `abortOperation` is not defined in myCalc.py, so the session ends there. */
  function Run(s: State, events: seq<Event>, fmt: Format): (r: Result<State>)
    requires Inv(s)
    ensures r.Ok? ==> Inv(r.value)
    decreases |events|
  {
    if events == [] then Ok(s)
    else
      var next :- Step(s, events[0], fmt);
      Run(next, events[1..], fmt)
  }

  /** A session split in two runs as its first part followed by its second. */
  lemma {:induction false} RunAppend(s: State, first: seq<Event>, second: seq<Event>, fmt: Format)
    requires Inv(s)
    ensures Run(s, first, fmt).DivisionByZero? ==> Run(s, first + second, fmt).DivisionByZero?
    ensures Run(s, first, fmt).Ok? ==>
      Run(s, first + second, fmt) == Run(Run(s, first, fmt).value, second, fmt)
    decreases |first|
  {
    if first == [] {
      assert first + second == second;
    } else {
      assert (first + second)[1..] == first[1..] + second;
      match Step(s, first[0], fmt)
      case DivisionByZero =>
      case Ok(next) => RunAppend(next, first[1..], second, fmt);
    }
  }

  /** The presses that type `text`, one digit button per character. */
  function DigitEvents(text: string): (r: seq<Event>)
    requires IsDigits(text)
    ensures |r| == |text|
  {
    if text == [] then []
    else [DigitKey(text[0] as int - '0' as int)] + DigitEvents(text[1..])
  }

  /** The presses for a non-empty number are its first digit, then the others. */
  lemma DigitsTail(text: string)
    requires IsDigits(text) && text != []
    ensures IsDigits(text[1..])
    ensures DigitEvents(text) == [DigitKey(text[0] as int - '0' as int)] + DigitEvents(text[1..])
  {
  }

  /** A session that starts with `e` is `e` followed by the rest. */
  lemma RunFirst(s: State, e: Event, rest: seq<Event>, fmt: Format)
    requires Inv(s)
    ensures Step(s, e, fmt).DivisionByZero? ==> Run(s, [e] + rest, fmt).DivisionByZero?
    ensures Step(s, e, fmt).Ok? ==> Run(s, [e] + rest, fmt) == Run(Step(s, e, fmt).value, rest, fmt)
  {
  }

  /** A number as one would type it: digits with no leading zero, or "0". */
  predicate Canonical(text: string) {
    |text| > 0 && IsDigits(text) && (text[0] == '0' ==> |text| == 1)
  }

  /** Typing digits onto an operand already being typed, other than "0", appends them. */
  lemma {:induction false} AppendDigits(s: State, text: string, fmt: Format)
    requires Inv(s) && !s.waitingForOperand && s.display != "0" && IsDigits(text)
    ensures Run(s, DigitEvents(text), fmt) == Ok(s.(display := s.display + text))
    decreases |text|
  {
    if text != [] {
      var d: DigitValue := text[0] as int - '0' as int;
      var rest := text[1..];
      DigitsTail(text);
      var next := Digit(s, d);
      assert DigitChar(d) == text[0];
      assert next == s.(display := s.display + [text[0]]);
      assert Step(s, DigitKey(d), fmt) == Ok(next);
      RunFirst(s, DigitKey(d), DigitEvents(rest), fmt);
      AppendDigits(next, rest, fmt);
      assert s.display + [text[0]] + rest == s.display + text;
    } else {
      assert s.display + text == s.display;
    }
  }

  /** Typing a number when an operand is awaited puts exactly that number on the
      display and leaves the operators and accumulators alone. */
  lemma EnterOperand(s: State, text: string, fmt: Format)
    requires Inv(s) && s.waitingForOperand && Canonical(text)
    ensures Run(s, DigitEvents(text), fmt)
      == Ok(s.(display := text, waitingForOperand := s.display == "0" && text == "0"))
  {
    var d: DigitValue := text[0] as int - '0' as int;
    assert DigitChar(d) == text[0];
    var rest := text[1..];
    DigitsTail(text);
    RunFirst(s, DigitKey(d), DigitEvents(rest), fmt);
    if s.display == "0" && d == 0 {
      assert text == "0";
    } else {
      assert text == "0" ==> d == 0;
      var next := Digit(s, d);
      assert next == s.(display := [text[0]], waitingForOperand := false);
      assert Step(s, DigitKey(d), fmt) == Ok(next);
      assert [text[0]] + rest == text;
      if rest != [] {
        assert next.display != "0";
        AppendDigits(next, rest, fmt);
      } else {
        assert DigitEvents(rest) == [] && text == [text[0]];
      }
    }
  }

  /** Pressing C twice is the same as pressing it once, from any state. */
  lemma ClearTwice(s: State, fmt: Format)
    requires Inv(s)
    ensures Run(s, [ClearKey, ClearKey], fmt) == Run(s, [ClearKey], fmt) == Ok(Initial)
  {
    ClearIdempotent(s);
  }
}
