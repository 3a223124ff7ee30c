# Four-function calculator state machine, in Dafny

This project models `CalculatorState` from `src/calc.rs`, the engine behind a
basic four-function calculator. The engine takes one button token per call of
`handle_input` ("0"–"9", ".", the operator glyphs `+ − x ÷`, "=", "C", "CE",
"←", "±"). It keeps eight fields: the display text `current`, the `history`
trail, the `stored` left operand, the pending operator `op`, the last operator
`last_op`, the last right operand `last_operand`, the division-by-zero `error`
lock and the `evaluated` flag set by "=".

Files:

- `numbers.dfy` (module `Numbers`): the `Op` enum, its glyphs, `parse_op`, and
  the arithmetic. `f64` values are modelled as exact `real`s. The text form of
  numbers is a parameter, `Numerals(parse, render)`. `parse` is
  `str::parse::<f64>` and gives `None` on malformed text. `render` is
  `f64::to_string`, which is also what `format!("{}")` prints.
  `ParseOr0` is `parse().unwrap_or(0.0)`. Three predicates name the facts
  about Rust's `f64` text forms that some properties need:
  `RenderNonEmpty`, `RenderAtMostOneDot` and `RoundTripsAt(num, x)`.
  `RoundTripsAt(num, x)` says that the text of the one value `x` parses back
  to `x`. Rust's `f64` `Display` prints, for every non-NaN `f64`, a text
  that parses back to the same value. The model has no NaN, but not every
  `real` is an `f64`. So a property that re-reads a displayed value asks the
  round trip only of the values it re-reads.
- `calculator_spec.dfy` (module `CalculatorSpec`): the eight fields as a
  `State` value. It has one function per mutator, `Step` for `handle_input`,
  and `Run` for a sequence of tokens.
- `calculator.dfy` (module `Calculator`): the class `CalculatorState`. Its
  fields are updated in place by methods with the source's structure. Each
  method is proved to leave `Snapshot()` equal to the matching `CalculatorSpec`
  function applied to the old state.
- `calculator_properties.dfy` (module `CalculatorProperties`): properties that
  span several calls. These are the lockout, an invariant kept by every token,
  digit entry, decimal idempotence, repeat-equals, left-to-right chaining and
  division by zero.
- `calculator_scenarios.dfy` (module `CalculatorScenarios`): the six unit
  tests of `src/calc.rs`, played on a `CalculatorState` object. Each one
  requires only the text-conversion facts it needs, such as
  `render(15.0) == "15"`.

`toggle_sign` (src/calc.rs:101-103) writes back the negation only when the
display parses (`if let Ok(num)`). A malformed display is left as it is. It is
not read as zero, unlike the `unwrap_or(0.0)` used by `set_operation`,
`calculate` and `calculate_internal`.

## Model

| member | source | states |
|---|---|---|
| `Numbers.Glyph` | src/calc.rs:134-139 | every operator's history glyph is one of the four operator buttons |
| `Numbers.ParseOp` | src/calc.rs:178-186 | only the four glyphs may be passed (the panic arm); the result is the operator whose glyph was given |
| `Numbers.GlyphRoundTrip` | src/calc.rs:178-185 | `parse_op` of an operator's glyph gives back that operator |
| `Numbers.Apply` | src/calc.rs:159-172 | the result of `+`, `−`, `x`, `÷` relates to the operands as sum, difference, product and quotient; division needs a nonzero divisor |
| `Numbers.ParseOr0` | src/calc.rs:115 | malformed text reads as 0, well-formed text as its parsed value |
| `CalculatorSpec.Init` | src/calc.rs:22-33 | display "0", empty history, stored 0, no operators, no operand, unlocked, not evaluated |
| `CalculatorSpec.ClearAll` | src/calc.rs:55-57 | the state after "C" equals the `new()` state |
| `CalculatorSpec.ClearEntry` | src/calc.rs:59-62 | display "0" and unlocked; history, stored, op, last_op, last_operand and evaluated unchanged |
| `CalculatorSpec.ClearIfEvaluated` | src/calc.rs:64-70 | after it, evaluated is false; if it was set, display is "0" and history ""; otherwise nothing changes |
| `CalculatorSpec.InputDigit` | src/calc.rs:72-79 | after the fresh start, the display ends with the digit; before it is nothing if the display was "0", and the old display otherwise; only the display changes |
| `CalculatorSpec.InputDecimal` | src/calc.rs:81-86 | after the fresh start, the display contains '.'; it gains one only if it had none |
| `CalculatorSpec.Backspace` | src/calc.rs:88-94 | after the fresh start, the display is never empty; one character or fewer becomes "0"; otherwise the last character is dropped |
| `CalculatorSpec.ToggleSign` | src/calc.rs:96-104 | after the fresh start, "0" and malformed displays stay; a display parsing as x becomes the text of -x |
| `CalculatorSpec.CalculateInternal` | src/calc.rs:155-176 | a zero divisor under ÷ locks, shows "Error", clears history and keeps stored; otherwise the result goes to both display and stored; the operators, last operand and evaluated flag are kept |
| `CalculatorSpec.SetOperation` | src/calc.rs:106-122 | a pending operator is evaluated first, and an error there ends the step; otherwise stored is the parsed display, op and last_op are the new operator, display "0", no last operand, evaluated cleared, history "stored glyph" |
| `CalculatorSpec.Calculate` | src/calc.rs:124-153 | with no op and no last_op it does nothing; otherwise op ends empty and evaluated is set, also after a division error. With op pending and b the parsed display: last_op becomes op, last_operand b, and the display and stored become `stored op b` with history extended by " b ="; a zero divisor under ÷ locks instead, with "Error", empty history and stored kept. In repeat-equals, with a the parsed display and b the last operand (0 if none) read back from its own text: last_op and last_operand are kept, and the display and stored become `a last_op b` with history "a glyph b="; a zero b under ÷ locks, with stored a |
| `CalculatorSpec.Step` | src/calc.rs:35-53 | a locked machine ignores all but "C"/"CE"; unrecognised tokens change nothing; "C" gives the `new()` state; "CE" is clear-entry |
| `Calculator.CalculatorState.constructor` | src/calc.rs:22-33 | the new object's fields are the `new()` defaults |
| `Calculator.CalculatorState.HandleInput` | src/calc.rs:35-53 | the fields after the call are `Step` of the fields before; locked and not "C"/"CE" leaves the object unchanged |
| `Calculator.CalculatorState.ClearAll` | src/calc.rs:55-57 | the fields become the `new()` defaults |
| `Calculator.CalculatorState.ClearEntry` | src/calc.rs:59-62 | the fields become `ClearEntry` of the old fields |
| `Calculator.CalculatorState.ClearIfEvaluated` | src/calc.rs:64-70 | the fields become `ClearIfEvaluated` of the old fields |
| `Calculator.CalculatorState.InputDigit` | src/calc.rs:72-79 | the fields become `InputDigit` of the old fields |
| `Calculator.CalculatorState.InputDecimal` | src/calc.rs:81-86 | the fields become `InputDecimal` of the old fields |
| `Calculator.CalculatorState.Backspace` | src/calc.rs:88-94 | the fields become `Backspace` of the old fields |
| `Calculator.CalculatorState.ToggleSign` | src/calc.rs:96-104 | the fields become `ToggleSign` of the old fields |
| `Calculator.CalculatorState.SetOperation` | src/calc.rs:106-122 | the fields become `SetOperation` of the old fields (only the four glyphs are accepted) |
| `Calculator.CalculatorState.Calculate` | src/calc.rs:124-153 | the fields become `Calculate` of the old fields |
| `Calculator.CalculatorState.CalculateInternal` | src/calc.rs:155-176 | the fields become `CalculateInternal` of the old fields |
| `CalculatorProperties.LockoutRun` | src/calc.rs:36-38 | from a locked state, any run of tokens without "C" or "CE" leaves every field unchanged |
| `CalculatorProperties.DecimalIdempotent` | src/calc.rs:81-86 | pressing "." twice gives the same state as pressing it once |
| `CalculatorProperties.InitConsistent` | src/calc.rs:22-33 | the `new()` state satisfies the invariant `Consistent` |
| `CalculatorProperties.StepConsistent` | src/calc.rs:35-53 | every token keeps the invariant: display non-empty with at most one '.'; locked implies display "Error" and empty history; a pending op equals last_op and evaluated is false; a last_op with no op pending always has its last_operand, so repeat-equals never falls back to `unwrap_or(0.0)` |
| `CalculatorProperties.RunConsistent` | src/calc.rs:35-53 | every run of tokens keeps the invariant, so a display reached from `new()` is never empty and never holds two '.' |
| `CalculatorProperties.CalculateInternalConsistent` | src/calc.rs:155-176 | the evaluation's display is non-empty with at most one '.', and an error shows "Error" with an empty history |
| `CalculatorProperties.InputDigitConsistent` | src/calc.rs:72-79 | digit entry keeps the invariant |
| `CalculatorProperties.InputDecimalConsistent` | src/calc.rs:81-86 | decimal entry keeps the invariant, so the display has at most one '.' |
| `CalculatorProperties.BackspaceConsistent` | src/calc.rs:88-94 | backspace keeps the invariant and never empties the display |
| `CalculatorProperties.ToggleSignConsistent` | src/calc.rs:96-104 | sign toggle keeps the invariant |
| `CalculatorProperties.SetOperationConsistent` | src/calc.rs:106-122 | operator entry keeps the invariant |
| `CalculatorProperties.CalculateConsistent` | src/calc.rs:124-153 | "=" keeps the invariant |
| `CalculatorProperties.AppendDigits` | src/calc.rs:72-79 | digits typed onto a display other than "0" are appended in order, and nothing else changes |
| `CalculatorProperties.TypeDigits` | src/calc.rs:64-79 | from a "0" display or just after "=", typing a lone digit, or d1..dn with d1 not '0', shows exactly what was typed, with the fresh-start history |
| `CalculatorProperties.EqualsPending` | src/calc.rs:124-130 | "=" with an operator pending shows and stores `stored op parsed-display`, clears op, sets evaluated, and remembers op and operand |
| `CalculatorProperties.RepeatEquals` | src/calc.rs:131-153 | with no op pending and a last operand whose text reads back as itself, "=" shows and stores `display last_op last_operand` and keeps last_op and last_operand |
| `CalculatorProperties.RepeatEqualsMany` | src/calc.rs:131-153 | k more presses of "=" apply the same operator and operand k more times, when the operand and each intermediate result read back from their text |
| `CalculatorProperties.EqualsThenRepeat` | src/calc.rs:124-153 | after `a op b`, pressing "=" k+1 times shows `a op b op b ... op b`, when b and each of the first k results read back from their text |
| `CalculatorProperties.ChainLeftToRight` | src/calc.rs:106-122 | with `a o1 b` pending, typing `o2`, then c as digits (a lone "0" included), then "=" shows `(a o1 b) o2 c`: left to right, no precedence. It requires `o2` to be defined on c (no ÷ 0) and `a o1 b` to read back from its text |
| `CalculatorProperties.DivideByZeroLocks` | src/calc.rs:163-169 | "=" on `a ÷ 0` locks with "Error", empty history and stored kept; then any tokens but "C"/"CE" change nothing |
| `CalculatorProperties.DivideByZeroOnChain` | src/calc.rs:107-112 | an operator pressed on a pending `a ÷ 0` locks with "Error" and leaves op, last_op and stored unchanged |
| `CalculatorProperties.DivideByZeroRelocks` | src/calc.rs:124-176 | after `a ÷ 0 =`, "CE" unlocks but keeps ÷ and the zero operand, so the next "=" locks again with "Error" (when 0 reads back from its text) |
| `CalculatorProperties.SignThenBackspaceLeavesMinus` | src/calc.rs:88-104 | `5 ± ←` leaves the unlocked display "-", a text that is not a numeral |
| `CalculatorProperties.UnlockFromError` | src/calc.rs:47-48 | from the lock, "CE" unlocks and keeps stored, op, last_op, last_operand and history; "C" gives the `new()` state |
| `CalculatorScenarios.AddScenario` | src/calc.rs:193-203 | 1 2 + 3 = shows "15" |
| `CalculatorScenarios.MultiplyByZeroScenario` | src/calc.rs:205-214 | 5 x 0 = shows "0" |
| `CalculatorScenarios.DivideByZeroScenario` | src/calc.rs:216-236 | 9 ÷ 0 = shows "Error" and locks; "+" leaves "Error"; "C" shows "0" unlocked; "CE" keeps "0" unlocked |
| `CalculatorScenarios.DoubleDecimalScenario` | src/calc.rs:238-250 | 1 . . 5 shows "1.5", and + 2 = then shows "3.5" |
| `CalculatorScenarios.RepeatEqualsScenario` | src/calc.rs:252-263 | 5 + 2 = shows "7", and a second "=" shows "9" |
| `CalculatorScenarios.BackspaceScenario` | src/calc.rs:265-275 | 1 0 ← shows "1", and a second ← shows "0" |

## Left out

- `src/main.rs` (window creation and wiring buttons to `handle_input`) is
  user-interface plumbing around a library that is not part of this model.
- IEEE-754 `f64` arithmetic is modelled as exact real arithmetic. Rounding,
  overflow to infinity, NaN and the sign of zero are not modelled.
- Rust's `f64` parsing and Display formats are not modelled. They are the
  parameter `Numerals`, and each property that depends on them says which fact
  it assumes (`RenderNonEmpty`, `RenderAtMostOneDot`, `RoundTripsAt` of the
  values it re-reads, or values for particular numbers in the scenarios).
- No invariant says that an unlocked display always parses as a number. The
  source does not keep one: `backspace` (src/calc.rs:88-94) drops the last
  character of whatever `toggle_sign` (src/calc.rs:96-104) wrote, so `5 ± ←`
  leaves "-" (`SignThenBackspaceLeavesMinus`). `str::parse::<f64>` rejects
  "-", so the next operator or "=" reads it as 0. Whether a text parses is
  abstract here, so the model does not prove the rejection.
- `Calculator.CalculatorState.constructor` takes the `Numerals` parameter,
  which `new()` does not have, because text conversion is a parameter of the
  model.
- `clear_all`'s `*self = CalculatorState::new()` is modelled as assigning
  every field the `new()` value. The effect on the fields is the same.
