# Four-function calculator entry state machine

A model of the calculator logic in `js/main.js` of a Tizen smartwatch
calculator. The calculator keeps four variables: the operand being typed
(`currentValue`), the left operand (`previousValue`), the pending operator
(`operator`, `null` or an operator string) and a flag `waitingForOperand` that
says the next digit starts a new operand. Five button handlers update them in
place: number entry, operator, equals, clear and backspace. Two pure helpers
give the operator glyph and perform the pending calculation.

The Dafny project has these parts:

- `wrappers.dfy` (`Wrappers`): `Option`, used for JavaScript's `null`.
- `entry.dfy` (`Entry`): the entry buffer. It has the 12-character limit,
  `slice(0, 12)` and `slice(0, -1)`, the point count and the well-formed entry
  predicate `IsEntry`.
- `arith.dfy` (`Arith`): `formatOperator` and `calculate`. The
  double-precision part of `calculate` is an `Arithmetic` value of three
  uninterpreted functions: whether `parseFloat` gives a number, what
  `String(parseFloat(s))` prints, and the rounded, formatted result of
  `p op c` (or "non-finite").
- `calc.dfy` (`Calc`): the state as a datatype, each handler as a function
  on it, and the lemmas about them. The class `Calculator` holds the four
  variables as fields. Its methods update them step by step, as the
  handlers do, and each method's `ensures` ties the new state to the
  handler's function. The handler functions are `NumberStep`
  (js/main.js:52-70), `OperatorStep` (js/main.js:76-88), `EqualsStep`
  (js/main.js:137-147) and `BackspaceStep` (js/main.js:160-169); clear is
  the constant `Initial` (js/main.js:5-8 and 150-154).
- `session.dfy` (`Session`): sequences of button presses, and what holds in
  every state they reach. `Step` dispatches a press to its handler as the
  click listeners in `init` do (js/main.js:186-217).

The point of the model is this. While an operand is being typed, the buffer
is always a decimal literal of 1 to 12 characters with at most one point, no
leading point and no leading zero before a digit (`Calc.Consistent`,
`Session.Reachable`). If JavaScript prints every number as a non-empty string
with at most one point, the display is never empty and never shows two
points. While an operand is being typed, backspace undoes a digit or point
that was taken in full. Two
operator keys in a row only replace the operator. An operator key after an
operand finishes the pending operation exactly as equals would. Equals
pressed twice does nothing the second time. Clear forgets everything.

One consequence: backspace is ignored while `waitingForOperand` is set, and
every calculated value is shown with that flag set. So the case of
`handleBackspace` for a minus sign followed by one character
(js/main.js:163) cannot be reached from start-up
(`Session.BackspaceMinusUnreachable`).

js/main.js has no tokenizer, no postfix conversion, no scientific functions,
no constants and no angle unit. The model follows js/main.js and has none of
these either.

## Model

| member | source | states |
|---|---|---|
| Entry.LimitLength | js/main.js:67-70 | the cut buffer has at most 12 characters, is a prefix of its input, equals the input when that has at most 12 characters, and has exactly 12 otherwise |
| Entry.DropLast | js/main.js:166 | `slice(0, -1)`: what remains plus the last character gives back the input; the empty string stays empty |
| Entry.AppendKeepsEntry | js/main.js:58-70 | appending a digit (not onto a lone `0`) or a first point to a well-formed entry, then cutting to 12, gives a well-formed entry |
| Entry.EntryPrefix | js/main.js:166 | every non-empty prefix of a well-formed entry is well-formed |
| Arith.ParseOperator | js/main.js:98-113 | the switch selects an operation exactly when the string is one of `+ - * /`, and that operation's symbol is the string |
| Arith.ParseSymbol | js/main.js:98-113 | each operation's symbol selects that operation |
| Arith.FormatOperator | js/main.js:16-29 | the glyph is empty exactly for strings other than the four operators, and is at most one character |
| Arith.FormatOperatorGlyphs | js/main.js:18-25 | `+ - * /` show as plus, minus sign (U+2212), multiplication sign (U+00D7), division sign (U+00F7) |
| Arith.FormatOperatorInjective | js/main.js:16-29 | a non-empty glyph determines the operator string |
| Arith.Pending | js/main.js:98-113 | the pending operation exists exactly when an operator is set and is one of the four, and it is the operation whose symbol is that operator |
| Arith.Calculate | js/main.js:91-134 | the current operand is returned (as `String` prints it) when an operand does not parse or the operator is not one of the four; otherwise the result is `'Error'` for a non-finite outcome of the selected operation and its formatted text for a finite one |
| Arith.CalculateApplies | js/main.js:97-133 | with both operands parsed, each of the four operator strings applies its own operation: `'Error'` when non-finite, the formatted result otherwise |
| Arith.CalculateErrorIff | js/main.js:115-118 | with a sound arithmetic, `'Error'` is the result exactly when both operands parse, the operator is one of the four and the operation is non-finite |
| Arith.CalculateDisplayable | js/main.js:91-134 | with a sound arithmetic, every result is non-empty and has at most one point |
| Calc.InitialInvariants | js/main.js:5-8 | the start-up state satisfies the invariant and is displayable |
| Calc.NumberPointRejected | js/main.js:58-59 | when typing, a point into an operand that already has one leaves the whole state unchanged |
| Calc.NumberStartsOperand | js/main.js:53-55 | when waiting, a key sets the buffer to `0.` for the point and to the digit otherwise, clears the flag and changes nothing else |
| Calc.NumberPointAppended | js/main.js:58-60 | a first point is appended to the operand being typed (then cut to 12), and nothing else changes |
| Calc.NumberDigit | js/main.js:61-64 | a digit replaces a lone `0`, is otherwise appended (then cut to 12), and leaves the operator and left operand alone |
| Calc.NumberLength | js/main.js:67-70 | unless a point is rejected, the new buffer has at most 12 characters, is a prefix of the typed text, and is all of it when that fits |
| Calc.NumberBounded | js/main.js:67-70 | from a consistent state, the buffer has at most 12 characters after any number key |
| Calc.NumberAtLimit | js/main.js:67-70 | a 12-character operand takes no more digits or points: the state is unchanged |
| Calc.NumberConsistent | js/main.js:52-73 | number entry keeps the invariant: a typed operand stays a well-formed entry |
| Calc.NumberDisplayable | js/main.js:52-73 | number entry keeps the buffer non-empty with at most one point |
| Calc.BackspaceEffect | js/main.js:160-169 | backspace is a no-op when waiting; a one-character operand or minus-plus-one-character becomes `0`; otherwise exactly the last character is removed; an empty buffer stays empty; nothing else changes |
| Calc.BackspaceConsistent | js/main.js:160-169 | backspace keeps the invariant |
| Calc.BackspaceDisplayable | js/main.js:160-169 | backspace keeps the buffer non-empty with at most one point |
| Calc.BackspaceUndoesNumber | js/main.js:160-169 | while an operand is being typed, after a digit or point that was taken without cutting, backspace restores the earlier state |
| Calc.OperatorEffect | js/main.js:76-88 | afterwards the operator is the new one, the flag is set and the left operand equals the shown operand; the pending calculation runs exactly when an operator was set and the flag was clear |
| Calc.OperatorReplaces | js/main.js:79-87 | two operator keys in a row give the same state as the second alone |
| Calc.OperatorChains | js/main.js:76-88 | unless an operator is pending with no operand typed after it, an operator key gives the same state as equals followed by that key |
| Calc.EqualsEffect | js/main.js:137-147 | equals is a no-op with no operator; otherwise the buffer becomes the calculated result, the left operand `''`, the operator null and the flag set |
| Calc.EqualsIdempotent | js/main.js:138-144 | a second equals leaves the state unchanged |
| Calc.OperatorKeepsInvariants | js/main.js:76-88 | an operator key keeps the invariant, and keeps the display sound when the arithmetic is sound |
| Calc.EqualsKeepsInvariants | js/main.js:137-147 | equals keeps the invariant, and keeps the display sound when the arithmetic is sound |
| Calc.Calculator.constructor | js/main.js:5-8 | the start-up state `'0'`, `''`, null, false |
| Calc.Calculator.HandleNumber | js/main.js:52-73 | the fields become the number step of the old state; from a valid state the buffer has at most 12 characters; for a button key the invariant is kept |
| Calc.Calculator.HandleOperator | js/main.js:76-88 | the fields become the operator step of the old state; the operator is the new one, the flag is set, the left operand is the shown value |
| Calc.Calculator.HandleEquals | js/main.js:137-147 | the fields become the equals step of the old state; the invariant is kept |
| Calc.Calculator.HandleClear | js/main.js:150-157 | the fields become `'0'`, `''`, null, false whatever they were |
| Calc.Calculator.HandleBackspace | js/main.js:160-169 | the fields become the backspace step of the old state; the invariant and displayability are kept |
| Session.RunAppend | js/main.js:186-217 | pressing one more button runs its handler on the state reached so far |
| Session.StepConsistent | js/main.js:186-217 | every button press keeps the invariant, and displayability under a sound arithmetic |
| Session.RunInvariants | js/main.js:186-217 | any sequence of presses keeps the invariant and, under a sound arithmetic, displayability |
| Session.Reachable | js/main.js:5-169 | in every state reached from start-up, a typed operand is a well-formed entry of at most 12 characters, and under a sound arithmetic the buffer is non-empty with at most one point |
| Session.BackspaceMinusUnreachable | js/main.js:163 | in every state reached from start-up where backspace acts, the buffer does not start with a minus |
| Session.ClearForgets | js/main.js:150-154 | whatever was pressed before, clear reaches the start-up state |
| Session.ClearIdempotent | js/main.js:150-154 | clear twice equals clear once |

## Left out

- DOM and presentation: `updateDisplay` (font-size thresholds, the `displayMeta` line), `setActiveOperatorButton`, the listener wiring and DOM-ready start-up in `init`. These are I/O. Only the dispatch from button to handler is modelled, as `Session.Step`.
- The Tizen hardware back key and application exit. This is a platform call.
- Floating-point arithmetic and number formatting in `calculate`: `parseFloat`, `isNaN`, `isFinite`, the four double operations, `Math.round` to 9 places, `String(result)`, `toExponential(5)` and the 12-character cut of the formatted number. They are the uninterpreted fields of `Arith.Arithmetic`. `Arith.Sound` names the one fact about them the display lemmas assume: JavaScript prints a number as a non-empty string with at most one point, never `Error`.
- Arith.Calculate: the Arithmetic fields are unconstrained, so its contract ties the result to `echo` or `combine` but says nothing about which number a calculation yields.
- The 12-character bound is proved only for an operand being typed. A calculated result shown on the display can be longer, and the model makes no length claim for it. Two observations from reading js/main.js:121-127, not executed: `-1.23456e100` still prints as `-1.23456e+100` (13 characters) after `toExponential(5)`; and `Math.round(result * 1000000000)` overflows to infinity for finite results above about 1.8e299, so those show `Infinity` rather than a number or `Error`.
- The unused `parseFloat(currentValue)` at the start of `handleOperator` (js/main.js:77) has no effect and is not modelled.
- String lengths and `slice` count UTF-16 code units in JavaScript and characters in the model. They agree for the button keys, which are ASCII.
- Calc.Calculator.HandleNumber: like the source, it accepts any string. The invariant and displayability are promised only for one digit or the point. That each number button delivers such a string is an assumption about the page markup, which is not part of this model; a two-character key such as `00` would break `IsEntry`. `Session.WellFormed` states this assumption, and `Session.Reachable`, `Session.BackspaceMinusUnreachable` and `Session.RunInvariants` rest on it.
