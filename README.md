# Windows-style calculator: a Dafny model of its evaluators

This project models the computing core of the windows-style-calculator repository, which has
two front ends that evaluate keypad input.

- **The legacy engine** (`script.js`) is a single object, `cal`. It reads one key at a time and
  evaluates incrementally. It keeps an operand stack, an operator stack and four flags:
  `isPreInputBinaryOperator`, `isPreInputUnaryOperator`, `isPreInputEquals` and `isOverride`.
  It also keeps the last result, the current base, the display text and the step text (the
  trace shown above the display). A binary operator reduces the stacks eagerly, by priority.
  A `)` reduces down to the matching `(`, and `=` reduces everything. In programmer mode the
  arithmetic is done in base 2, 8 or 16.
- **The React hook** (`hooks/use-calculator.ts`) has a single pending operation and no
  precedence. Its state is a display, a previous value, an operator, a waiting-for-operand flag
  and a history list.
- **The React programmer keypad** (`components/calculator-modes/programmer-mode.tsx`)
  converts the display between HEX, DEC, OCT and BIN. It also disables the digit keys that the
  selected base does not have.

The modules follow the structure of the source.

- `JsNumber` and `JsArith` hold the JavaScript number conversions and arithmetic that the code
  relies on: `toString(radix)`, `parseInt`, `toExponential(7)`, truncating `%`, 32-bit `&`, `|`
  and `~`, and division by zero.
- `Classifiers` holds the four regular expressions of the legacy engine, as predicates over
  characters.
- `LegacyFormat` holds `checkLength`, `calculateScales`, the ± text callback and the chaining of
  step text.
- `LegacyOperations` holds the unary callbacks and `_stackHelper`. Here `eval` is replaced by an
  explicit operator dispatch.
- `LegacyStacks` holds `travelStack`, the loop of `rightTag` and the precedence decision of
  `binaryOperate`, written as functions over the stack contents. It also has the loops that are
  proved to compute them.
- `LegacyScenarios` plays whole key sequences through those stack functions in standard mode:
  `a + b × c =`, `a × b + c =`, `a − b − c =` and `( a + b ) × c =`. This shows precedence,
  left-to-right evaluation of equal priorities, and grouping.
- `LegacyEngine` holds the `Calculator` class. Its fields are the fields of `cal`, with the
  display and step text as plain strings. It has one method per handler. Between keypresses,
  `HandleKey` keeps the stacks balanced: there is one operand per binary operator on the
  operator stack.
- `HookCalculator` holds the `CalculatorHook` class. It has one field per state hook and one
  method per handler.
- `ProgrammerMode` holds `convertValue` and the keypad's digit gating.

Numbers are modelled as `Number = Int(i) | NonInt(text)`. Integer values are computed exactly,
following JavaScript's rules. Every other value comes from a `FloatLib` supplied by the caller.
This covers the `Math` functions, `parseFloat` of non-integer text, fractional quotients, and
`toExponential` and `toString` of non-integers. The runtime's floating point lies outside the
model. In these places the code behaves unlike a usual calculator, and the model follows the code:

- reciprocal of 0 shows an error text and leaves the stacks as they are (`script.js:372-377`);
- division or `%` by zero gives `Infinity` or `NaN`, not an error;
- an unmatched `)` reduces the whole operator stack (`script.js:645-652`);
- `=` empties the stacks even when the display is not a number (`script.js:603-605`).

## Model

| member | source | states |
|---|---|---|
| JsNumber.ToRadix | script.js:759-787 | `toString(radix)` of a natural number writes only digits of the radix, with no leading zero |
| JsNumber.ToRadixValue | script.js:759-787 | the digits that `toString(radix)` writes have the value of the number rendered |
| JsNumber.ParseIntToRadix | script.js:757-788 | round trip: `parseInt(i.toString(r), r) == i` for every integer and each of the four radixes |
| JsNumber.ParseIntToUpperRadix | components/calculator-modes/programmer-mode.tsx:73-89 | `parseInt` reads back the upper-cased hexadecimal rendering too |
| JsNumber.MantissaNearest | script.js:710 | `toExponential(7)` keeps exactly eight significant digits; it is exact below 10^8 and within half a unit of the last digit above |
| JsNumber.ExponentialShape | script.js:710 | `toExponential(7)` of a non-zero integer is sign, digit, point, seven digits, `e+`, exponent |
| JsArith.ToInt32 | script.js:681-696 | the 32-bit coercion of bitwise and, or and not lands in the signed 32-bit range and is congruent to its input modulo 2^32 |
| JsArith.TruncRemSpec | script.js:681-696 | JavaScript `%`: a == b*q + r, the magnitude of r is below that of b, and r is zero or has the sign of a |
| JsArith.DivisionExact | script.js:681-696 | integer `/` is exact when the divisor divides; a zero divisor gives Infinity or NaN |
| JsArith.BitNotTwice | script.js:451-457 | `~~a` is a coerced to 32 bits |
| Classifiers.ParseIntOfInteger | script.js:519-520 | `parseInt` reads every character of a display that matches intPattern |
| Classifiers.DecimalStringIsInteger | script.js:801-803 | `String(i)` of every integer matches intPattern and reads back as i |
| Classifiers.UnsignedIntegerIsHex | script.js:794-796 | an unsigned integer text also matches hexPattern, so isNumber admits it |
| Classifiers.NotNumber | script.js:794-824 | a text with no sign, no point and one character that is not 0-9 or A-F is not a number |
| Classifiers.IntegerIsNotFloat | script.js:130-133 | no text matches both intPattern and floatPattern |
| Classifiers.ExponentialIsNumberIffPositive | script.js:134-135 | a positive exponential result is an operand again; a negative one matches no pattern |
| LegacyFormat.StripTrailingZeros | script.js:706-708 | the stripped text is a prefix of the input, the removed characters are all zeros, and it does not end in 0 |
| LegacyFormat.StripKeepsPoint | script.js:706-708 | on a decimal text, stripping zeros keeps everything up to and including the point |
| LegacyFormat.CheckLengthAsWrittenAgrees | script.js:705-711 | `checkLength` as written throws exactly on text values longer than 12 characters, and otherwise agrees with the corrected version in every base |
| LegacyFormat.LongDisplayThrows | script.js:705-711 | thirteen typed digits followed by `=` make `checkLength` throw a TypeError |
| LegacyFormat.CheckLengthOfInteger | script.js:705-711 | an integer of at most 12 characters is shown as its decimal text; a longer one is shown in exponential notation, which isNumber accepts exactly when it is positive |
| LegacyFormat.RadixTextTrimmed | script.js:705-709 | an integer written in base 2, 8, 10 or 16 has no point, so `checkLength` strips no zeros from it |
| LegacyFormat.NegateLongThrows | script.js:526 | ± on a twelve-digit display builds a thirteen-character text, on which `checkLength` as written throws a TypeError |
| LegacyFormat.NegateInteger | script.js:347-357 | the ± text callback on the text of i writes the text of -i |
| LegacyFormat.NegateTwice | script.js:347-357 | ± twice gives the text back |
| LegacyFormat.LastIndexOf | script.js:532 | `lastIndexOf`: the last position of the character, or -1 |
| LegacyFormat.ChainReplacesLastEntry | script.js:527-537 | a chained unary step replaces the previous unary entry instead of adding another |
| LegacyFormat.ScalesRoundTrip | script.js:757-788 | the base view of n written in the current base shows n in every slot, and each slot parses back to n |
| LegacyFormat.ScalesKeepInput | script.js:763-787 | outside decimal the current base's slot is the input unchanged; unparsable input shows NaN in the other slots |
| LegacyFormat.ParseNumberOfInteger | script.js:681-696 | an integer shown as text and read back as a number is the same integer |
| LegacyOperations.UnaryOperand | script.js:519-524 | unaryOperate calls its callback exactly on integer, decimal or scientific displays |
| LegacyOperations.NegateOnInteger | script.js:346-358 | ± on an integer display shows the text of its negation |
| LegacyOperations.PowersOnIntegers | script.js:366-371 | x² of an integer is i*i, and 10^x of a natural is an exact power of ten |
| LegacyOperations.PowerOfTenDigits | script.js:414-418 | 10^x of a natural x is written as a one followed by x zeros |
| LegacyOperations.PowerDigits | script.js:683-693 | b^n written in base b is a one followed by n zeros |
| LegacyOperations.BitNotOnInteger | script.js:451-457 | `~` of a 32-bit integer is -i - 1 |
| LegacyOperations.ReciprocalOfZero | script.js:372-377 | 1/x shows text exactly when x is 0: the fixed error text, which isNumber rejects |
| LegacyOperations.MinusNegativeThrows | script.js:679-696 | keys `5 - 3 ± =` make `eval("5--3")` throw, while the dispatch gives 8 |
| LegacyOperations.StackHelperAgrees | script.js:667-700 | on plain decimal operand texts (no hexadecimal letter, no leading zero), wherever `eval` meets no `--`, it computes what the dispatch computes |
| LegacyOperations.DecimalStringIsPlain | script.js:667-700 | every integer the engine writes back, `String(i)`, is a plain decimal text, so the previous row covers all results it reduces again |
| LegacyOperations.RadixOperandOf | script.js:683-693 | in programmer mode an operand written in the current base is read back as its value |
| LegacyOperations.RadixTextValue | script.js:683-693 | an integer written in the calculator's base reads back in that base as the same integer |
| LegacyOperations.CheckLengthOfRadix | script.js:705-711 | an integer written in base b: up to 12 characters both versions of `checkLength` show it unchanged; longer, the written version throws and the corrected one shows `toExponential(7)` of the integer itself |
| LegacyOperations.BinaryProductShown | script.js:690-694 | in BIN, `1000000 × 1000000` is written as the thirteen characters 1000000000000; `checkLength` as written throws on it, and the corrected version shows 4096 in exponential notation |
| LegacyOperations.RadixArithmetic | script.js:677-694 | in base 2, 8 or 16, operands shown in that base combine to the exact result written in that base |
| LegacyOperations.DecimalArithmetic | script.js:679-697 | decimal operands combine to the exact integer result of the operator |
| LegacyStacks.Priority | script.js:138-150 | the priority table: 1 for bitwise or, up to 6 for `(`, and 6 only for `(` |
| LegacyStacks.ReduceTop | script.js:627-631 | one reduction pops the top operator and leaves one operand more than binary operators |
| LegacyStacks.Travel | script.js:615-635 | travelStack pops at most `count` operators, only from the top, and keeps the operand count one above the binary operator count |
| LegacyStacks.TravelPopsBinary | script.js:621-626 | travelStack pops only binary operators of priority at least minPri, so it never removes a `(` |
| LegacyStacks.TravelStops | script.js:621-626 | with fewer reductions than its count, the operator it stopped at (a `(` or lower priority) is back on top |
| LegacyStacks.TravelToOpen | script.js:593 | `=` reduces until the operator stack is empty or a `(` is on top |
| LegacyStacks.LastOpen | script.js:645-652 | the last `(` on the operator stack, with only binary operators above it |
| LegacyStacks.CloseParen | script.js:645-652 | the loop of rightTag keeps one operand more than binary operators |
| LegacyStacks.CloseParenShape | script.js:645-652 | rightTag removes exactly the operators above the nearest `(` plus that `(`; with no `(` it empties the stack |
| LegacyStacks.TravelLoop | script.js:615-635 | the loop of travelStack, with the round count fixed before it starts, computes Travel and returns the top operand |
| LegacyStacks.CloseLoop | script.js:645-652 | the pop-until-`(` loop of rightTag computes CloseParen |
| LegacyStacks.BinaryReduceBalanced | script.js:555-581 | binaryOperate leaves one operand per binary operator |
| LegacyStacks.BinaryReduceCases | script.js:565-581 | the new operator ends on top. A higher priority defers with no reduction; an equal priority above 3 reduces exactly one operator; otherwise it reduces down to a `(` or a lower priority and shows a value |
| LegacyScenarios.Exact | script.js:667-699 | in standard mode, one reduction of two operands that read as integers is the exact integer operation |
| LegacyScenarios.Defer | script.js:563-569 | an operator that outranks the one on top, or meets an empty stack, is pushed with no reduction and nothing shown |
| LegacyScenarios.ReduceDown | script.js:575-578 | an operator that does not outrank the one on top, and is not an equal priority above 3, reduces down to its own priority and shows the result |
| LegacyScenarios.ReduceOne | script.js:615-635 | with one binary operator pending, a reduction down to any priority up to its own replaces the two operands by the operator applied to them |
| LegacyScenarios.ReduceTwo | script.js:593 | with two binary operators pending, `=` applies the upper one first and the lower one to its result |
| LegacyScenarios.ReduceThenPush | script.js:563-580 | `x o1 d o2` with o2 not outranking o1 reduces o1 at once, shows its result and leaves o2 pending |
| LegacyScenarios.PressAfterOpen | script.js:563-580 | an operator pressed right after `(` reduces nothing, shows the display and is pushed above the `(` |
| LegacyScenarios.CloseOne | script.js:639-652 | `)` after `( x o` reduces o and drops the `(`, leaving no operator |
| LegacyScenarios.ReduceFirst | script.js:563-580 | `a o1 b o2` typed on empty stacks, with o2 not outranking o1: o1 is reduced at once to the exact integer, which is shown and left under o2 |
| LegacyScenarios.TotalOfOne | script.js:588-594 | `=` with one operator pending on an integer applies it exactly to that integer and the display's value |
| LegacyScenarios.LeftFirst | script.js:548-607 | `a o1 b o2 c =` with o2 not outranking o1 shows a o1 b when o2 is pressed, and `=` gives (a o1 b) o2 c |
| LegacyScenarios.AddThenMultiply | script.js:548-607 | `a + b × c =` gives a + b·c, and pressing × shows nothing |
| LegacyScenarios.MultiplyThenAdd | script.js:548-607 | `a × b + c =` gives a·b + c, and pressing + shows a·b |
| LegacyScenarios.SubtractLeftToRight | script.js:548-607 | `a − b − c =` gives (a − b) − c, and the second − shows a − b. A negative b or c relies on the corrected `_stackHelper` of the second finding |
| LegacyScenarios.ShownInteger | script.js:705-711 | an integer result of at most twelve characters is shown as its decimal digits, which read back as the same integer |
| LegacyScenarios.ParenthesesGroup | script.js:548-658 | `( a + b ) × c =` gives (a + b)·c: `)` reduces the sum, empties the operator stack and writes the sum to the display as the left operand of × |
| LegacyEngine.KeyText | script.js:9-20 | the character typed by each digit, point and letter key code |
| LegacyEngine.EntryBounded | script.js:829-855 | typed characters never make the display longer than 13; a 13-character display does not grow |
| LegacyEngine.EntryKeepsDigits | script.js:829-855 | digits typed onto digits leave a display that matches intPattern |
| LegacyEngine.UnaryStepChains | script.js:527-537 | two unary keys in a row leave the step text as if only the second had been applied |
| LegacyEngine.Calculator.constructor | script.js:118-128 | the initial state: empty stacks, all flags false, display "0", step text `&nbsp;`, base 10 |
| LegacyEngine.Calculator.ShowInput | script.js:829-855 | override or a display of "0" is replaced (`.` becomes "0."); a shorter display is appended to; afterwards override and the three isPreInput flags are false |
| LegacyEngine.Calculator.Fact | script.js:937-953 | returns n! from the cache or from the loop, and keeps every cache entry at n-1 equal to n! |
| LegacyEngine.Calculator.UnaryOperate | script.js:517-542 | on a numeric display shows checkLength of the callback's value and adds or chains the step entry; otherwise only the binary flag changes |
| LegacyEngine.Calculator.TravelStack | script.js:615-635 | the stacks become Travel of the old ones with `level` or else the stack height as count, and it returns the top operand |
| LegacyEngine.Calculator.PushBinary | script.js:553-581 | pushes the display, extends the step text and applies BinaryReduce |
| LegacyEngine.Calculator.Precede | script.js:556-580 | the operand and operator stacks become what BinaryReduce gives for the display text and the new operator (push, reduce one step, reduce down to the new priority, or only push), and the value it returns is the one BinaryReduce shows |
| LegacyEngine.Calculator.BinaryOperate | script.js:548-584 | on a number it applies BinaryReduce; on a non-number it leaves stacks, display and step text alone; it keeps the stacks balanced |
| LegacyEngine.Calculator.Reset | script.js:879-885 | `_reset` empties both stacks and clears the three isPreInput flags |
| LegacyEngine.Calculator.ShowTotal | script.js:592-600 | the stacks become the fully reduced stacks with the display pushed (`TotalStacks`), and the display and remembered result become `TotalShown`; the step text is cleared |
| LegacyEngine.Calculator.ReduceAll | script.js:593-594 | pushes the display and reduces the whole stack: the stacks become Travel with the stack height as count, and the top operand is returned |
| LegacyEngine.Calculator.ShowResult | script.js:594-602 | the display and the remembered result both become `checkLength` of the value, read in the calculator's base; the step text is cleared and override set |
| LegacyEngine.Calculator.Calculate | script.js:588-607 | a second `=` changes nothing; otherwise the stacks end empty with isPreInputEquals set, whether or not the display was a number |
| LegacyEngine.Calculator.Equals | script.js:590-605 | the stacks end empty with isPreInputEquals set; a numeric display is replaced by `TotalShown`, the checkLength of the fully reduced stack with the display pushed, and that value is remembered; any other display, step text and result stay as they were |
| LegacyEngine.Calculator.ShowTotalAndReset | script.js:592-604 | the display and remembered result become `TotalShown` with the step text cleared and override set, and then the stacks are empty and every input flag cleared |
| LegacyEngine.Calculator.RightTag | script.js:639-658 | on a number it reduces to the nearest `(` and consumes it, then moves the reduced value from the operand stack to the display; it keeps the stacks balanced |
| LegacyEngine.Calculator.CloseGroup | script.js:641-656 | pushes the display, reduces down to and through the nearest `(`, and moves the reduced value from the operand stack to the display; the stacks stay balanced |
| LegacyEngine.Calculator.OpenParen | script.js:496-499 | `(` extends the step text and pushes `(` |
| LegacyEngine.Calculator.CE | script.js:713-718 | the display becomes "0" |
| LegacyEngine.Calculator.Clear | script.js:720-727 | the display is "0", the step text is `&nbsp;`, the stacks are empty and the flags are cleared |
| LegacyEngine.Calculator.Back | script.js:737-740 | the last character is dropped, or the display becomes "0" when fewer than two remain |
| LegacyEngine.Calculator.Recall | script.js:505-507 | the display shows the last `=` result |
| LegacyEngine.Calculator.SwitchType | script.js:860-874 | the new calculator type, with `_reset` |
| LegacyEngine.Calculator.SwitchScale | script.js:276 | the new base |
| LegacyEngine.Calculator.UnaryKeyPress | script.js:378-389 | n! fills the factorial cache, and every unary key keeps the cache correct |
| LegacyEngine.Calculator.HandleKey | script.js:334-510 | digit keys type. A binary key pressed after a binary key changes nothing; otherwise it sets the binary flag and override before binaryOperate. Every key keeps the stacks balanced |
| LegacyEngine.Calculator.BinaryKey | script.js:473-479 | right after another binary key nothing but the flag changes (display, step text, stacks and override stay); otherwise the override is set before binaryOperate; the stacks stay balanced |
| LegacyEngine.Calculator.ControlKey | script.js:480-508 | `=`, CE, C, back, the parentheses and ↑ keep the stacks balanced |
| HookCalculator.HasDigit | hooks/use-calculator.ts:100 | `/\d/.test(value)` holds exactly when some character is a decimal digit |
| HookCalculator.CalculateOnIntegers | hooks/use-calculator.ts:47-62 | on integers `calculate` computes the exact sum, difference, product and exact quotient; `=` and unknown operators give the second value |
| HookCalculator.SubtractUndoesAdd | hooks/use-calculator.ts:49-52 | on integers `-` undoes `+` |
| HookCalculator.BackspaceText | hooks/use-calculator.ts:90-96 | backspace never leaves an empty display |
| HookCalculator.BackspaceUndoesTyping | hooks/use-calculator.ts:12-22 | backspace undoes the last typed key when not waiting for an operand |
| HookCalculator.PowTenKeyIsTyped | hooks/use-calculator.ts:100-101 | the scientific keypad's `10^` value contains digits, so it is typed into the display |
| HookCalculator.PointOnZero | hooks/use-calculator.ts:106-109 | `.` on a display of "0" gives "." rather than "0." |
| HookCalculator.RouteOf | hooks/use-calculator.ts:98-128 | a value is typed exactly when it has a digit; it goes to inputOperation exactly when it has no digit and is one of `+ - * /` |
| HookCalculator.KeysIgnored | hooks/use-calculator.ts:98-128 | `ce`, `%`, the hex letters, `(`, `pi` and `mod` are dropped by handleInput |
| HookCalculator.CalculatorHook.constructor | hooks/use-calculator.ts:6-10 | display "0", empty history, nothing pending, not waiting |
| HookCalculator.CalculatorHook.InputNumber | hooks/use-calculator.ts:12-22 | when waiting, the key replaces the display and the wait ends; otherwise "0" is replaced and any other display is appended to |
| HookCalculator.CalculatorHook.InputOperation | hooks/use-calculator.ts:24-45 | with no previous value it only stores the display's value. With one, display and previous value become `calculate` of the previous value (0 when falsy), the input and the operation and one history line is added. It always ends waiting with the new operator pending |
| HookCalculator.CalculatorHook.PerformCalculation | hooks/use-calculator.ts:64-77 | does nothing without a pending operation; otherwise it shows the result, clears the operation, waits, and adds one history line |
| HookCalculator.CalculatorHook.Clear | hooks/use-calculator.ts:79-84 | display "0", nothing pending, not waiting; the history is untouched |
| HookCalculator.CalculatorHook.ClearEntry | hooks/use-calculator.ts:86-88 | only the display changes, to "0" |
| HookCalculator.CalculatorHook.Backspace | hooks/use-calculator.ts:90-96 | drops the last character when the display is longer than 1, otherwise "0" |
| HookCalculator.CalculatorHook.ShowUnary | hooks/use-calculator.ts:110-124 | the display shows the result, and the history gains the function's line when it has one |
| HookCalculator.CalculatorHook.InputPoint | hooks/use-calculator.ts:106-109 | `.` is typed only when the display has no point |
| HookCalculator.CalculatorHook.HandleInput | hooks/use-calculator.ts:98-128 | the routing of each value, with the state each branch leaves. History is append-only, by at most one line. Unrouted values change nothing |
| ProgrammerMode.RenderReadsBack | components/calculator-modes/programmer-mode.tsx:87-96 | every rendering parses back in its base to the number rendered; HEX output has no lower-case letter |
| ProgrammerMode.ConvertValue | components/calculator-modes/programmer-mode.tsx:67-100 | "0" when the value does not parse in the source base; otherwise a text that parses in the target base to the same number, upper-case for HEX |
| ProgrammerMode.ConvertRoundTrip | components/calculator-modes/programmer-mode.tsx:67-96 | the rendering of n in one base converts to the rendering of n in any base, and to itself in its own base |
| ProgrammerMode.UnknownBaseIsDecimal | components/calculator-modes/programmer-mode.tsx:81-95 | an unknown base name is parsed and rendered as decimal |
| ProgrammerMode.PanelShowsNumber | components/calculator-modes/programmer-mode.tsx:127-136 | a display holding n in the selected base shows n in all four rows of the panel |
| ProgrammerMode.DigitKeysOnKeypad | components/calculator-modes/programmer-mode.tsx:26-65 | 0-9 are keys of the main grid; A-F are only letter buttons |
| ProgrammerMode.EnabledDigitsAreBaseDigits | components/calculator-modes/programmer-mode.tsx:139-159 | a key 0-9 or A-F can be pressed exactly when it is a digit of the selected base: BIN 0-1, OCT 0-7, DEC 0-9, HEX all sixteen |
| ProgrammerMode.OtherKeysEnabled | components/calculator-modes/programmer-mode.tsx:156-159 | no key other than a digit is ever disabled |

## Findings

| source | as written | input that shows it | evidently intended | confidence | as-written member | corrected member |
|---|---|---|---|---|---|---|
| script.js:710 | `checkLength` calls `value.toExponential(7)` on its argument. When the argument is the display text itself, it is a string, which has no such method, so a TypeError is thrown | type the thirteen digits 1234567890123, then `=` | show the value in exponential notation | high, by reading; not executed | LegacyFormat.LongDisplayThrows | LegacyFormat.CheckLengthOfInteger |
| script.js:526 | the same `toExponential(7)` call, reached from unaryOperate: the ± callback returns a string | type the twelve digits 123456789012, then ± | show -123456789012 in exponential notation | high, by reading; not executed | LegacyFormat.NegateLongThrows | LegacyFormat.CheckLengthOfInteger |
| script.js:594 | the same call, reached from calculate in programmer mode: `_stackHelper` returns base 2, 8 and 16 results as strings | BIN, then `1000000 × 1000000 =`, whose result is the thirteen characters 1000000000000 | show 4096 in exponential notation | high, by reading; not executed | LegacyOperations.BinaryProductShown | LegacyOperations.CheckLengthOfRadix |
| script.js:679-696 | `_stackHelper` builds `f + op + s` and passes it to `eval`. A subtraction whose second operand text starts with `-` reads as `5--3`, which is a SyntaxError | keys `5 - 3 ± =` | 5 - (-3) = 8 | high, by reading; not executed | LegacyOperations.MinusNegativeThrows | LegacyOperations.DecimalArithmetic |

The as-written versions are `LegacyFormat.CheckLengthAsWritten` and
`LegacyOperations.StackHelperAsWritten`. The engine uses the corrected `CheckLength` and
`StackHelper`. The corrected `CheckLength` reads a text value in the base it is written in:
the current base in programmer mode, and decimal otherwise. So a long radix result shows its own
value, and `LegacyFormat.CheckLengthAsWrittenAgrees` shows that it agrees with the written
version wherever that one does not throw. With the corrected versions no keypress throws, and balance between keypresses
therefore holds, on the operand texts the dispatch models (see `LegacyOperations.StackHelper`
under "Left out"). As written, an exception in the middle of a handler would leave the stacks
half-updated.

## Left out

- DOM and event plumbing of `script.js` is not modelled: the listeners, `initCache`,
  `showScales`/`resetScales` writes, `disableButtons`/`rebuildButtons` and the panel switching.
  `calculateScales` is modelled as the pure function those writes display.
- Floating point is not modelled. The `Math` functions, `parseFloat` of non-integer text,
  fractional quotients, `^`/`yroot` with non-natural exponents, and `toExponential`/`toString`
  of non-integers are all parameters (`FloatLib`).
- Integers are unbounded and exact. The model does not capture rounding above 2^53, nor
  `String()` switching to exponent form at 10^21, nor overflow past about 1.8·10^308. Where
  JavaScript overflows (171!, 10^x of 309, `10 ^ 400`, a long chain of × reduced on the stack)
  the source shows `Infinity` and the model shows `toExponential(7)` of the exact integer.
- Negative zero is not told apart from zero.
- `LegacyOperations.StackHelper` replaces `eval(f + op + s)` by the operator on the values the
  texts show. That equals `eval` only on plain decimal texts. Two kinds of operand text reach
  `eval` in programmer mode in base 10, and the model does not capture what `eval` does with them.
  The first is a text with hexadecimal letters left on the display after a switch from HEX to DEC.
  `switchScaleListener` does not rewrite the display, and `isHex` accepts such a text.
  Keys HEX, `F`, DEC, `+ 1 =` make `eval("F+1")` throw a ReferenceError. Keys HEX, `1 E`, DEC,
  `+ 5 =` make `eval("1E+5")`, which is 100000. The second is a text with a leading zero such as
  `-010`, which sloppy-mode `eval` reads as a legacy octal literal (-8). In both cases the model
  applies the operator to `parseFloat`/`Number` of the text.
- `LegacyOperations.StackHelperAgrees` is stated only for plain decimal operand texts
  (`PlainDecimal`), for the reason in the previous line.
- `parseInt` is modelled without skipping leading white space. No display text contains any.
- `LegacyEngine.Calculator.HandleKey` states the digit and binary branches and the stack
  balance. What the other keys do is stated by the handlers it calls.
- `LegacyEngine.Calculator.UnaryKeyPress` states only that the factorial cache stays correct.
  The effect on the display is stated by `UnaryOperate`.
- `LegacyEngine.Calculator.ControlKey` states only that the stacks stay balanced. Each key's
  effect is stated by its handler.
- The React hook's closures are modelled as sequential updates. Each handler runs on the
  state of the latest render, one event at a time.
- `clearEntry` is modelled, but no keypad calls it. The standard keypad's CE key sends `"ce"`
  to `handleInput`, which drops it.
- The `catch` of `convertValue` is not modelled, because `toString` with radix 2, 8, 10 or 16
  never throws.
- The theme hook, the achievement system, the button animations and the page layout are not
  part of this model.
