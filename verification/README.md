# SAM Calculator: the expression evaluator and the display rules

The calculator is a Swing window with a one-line display and twenty buttons.
Buttons and keys edit the display text. `=` (or Enter) hands the text to
`evaluateExpression`, a two-stack infix evaluator. The evaluator scans the
characters left to right:

- spaces are skipped;
- a maximal run of digits and `.` is read as one number with `Double.parseDouble`;
- `(` is pushed onto the operator stack;
- `)` reduces back to the nearest `(`;
- an operator first applies every pending operator of equal or higher tier;
- at the end, every remaining operator is applied and the top operand is the result.

This project models that evaluator and the display-editing handlers in Dafny.
It proves that the model behaves as the calculator promises.

- `literals.dfy` (module `Literals`): number literals as `parseDouble` sees them. A digit/point run is accepted exactly when it has at least one digit and at most one point. Its value is the whole part plus the fraction.
- `evaluator.dfy` (module `Evaluator`): `hasPrecedence`, `applyOp`, the scan and its three reduction loops as functions over a pair of stacks, and `evaluateExpression` as a loop program over the character array.
  - Stacks are sequences whose last element is the top.
  - Java exceptions become `Err(Malformed)`. This covers popping or peeking an empty stack and a literal `parseDouble` rejects.
  - The explicit check in `applyOp` becomes `Err(DivisionByZero)`.
  - The loop program is proved to compute the functional specification `Evaluate`. Each pass of its loop (`ScanStep`) handles one number run or one other character, and the `i--` after the inner number loop becomes the index just past the number run.
- `grammar.dfy` (module `Grammar`): an independent reference semantics made of expression trees, their value, and the text the display shows for them.
  - The main theorem `EvaluatePrinted` says that evaluating the printed text of any tree that follows the usual precedence grammar gives exactly the tree's value. This covers precedence, left associativity, grouping, operand order and division by zero.
- `behaviour.dfy` (module `Behaviour`): precedence, grouping and left associativity for all literals `parseDouble` accepts, with the samples `2 + 3 * 4`, `(2 + 3) * 4` and `9 - 2 - 3`. It also covers the failure cases and the quirks the code has, which are reproduced rather than repaired:
  - a factor, a space and an expression (`"1 2"`) evaluate to the expression alone;
  - a factor directly followed by `(` and an expression (`"1(2"`) evaluates to 0;
  - an unclosed `(` at the start of the input (`"(1 + 2"`) fails only because the drain runs out of operands.
- `display.dfy` (module `Display`): the display as a class with a mutable `text` field. Its handlers are the button handler, the typed-key handler, and the keypad decimal-point and backspace keys. Each handler is specified by a function from the old text to the new one.

## Model

| member | source | states |
|---|---|---|
| Literals.ParseDecimal | src/CalculatorGUI.java:110 | parseDouble on a digit/point run succeeds exactly when the run has at least one digit and at most one '.' |
| Literals.ParseWholeNumber | src/CalculatorGUI.java:110 | a run of digits without a point reads as the whole number its digits denote |
| Literals.ParseWithPoint | src/CalculatorGUI.java:110 | a run `a.b` (`a` or `b` may be empty, not both) reads as value(a) + Shift(value(b), len(b)), which covers `.5` and `5.` |
| Literals.ShiftScales | src/CalculatorGUI.java:110 | Shift(x, k) is x / 10^k: multiplied by 10^k it gives back x |
| Literals.ScaledValue | src/CalculatorGUI.java:110 | an accepted run denotes the whole number its digits spell with the point removed, shifted right by as many places as it has digits after the point (by ShiftScales, that number divided by 10^k) |
| Literals.NumeralRoundTrip | src/CalculatorGUI.java:110 | the decimal numeral of every natural number n is read back as n |
| Literals.CountCharZero | src/CalculatorGUI.java:89 | a character occurs zero times exactly when `contains` is false for it |
| Evaluator.HasPrecedence | src/CalculatorGUI.java:131-138 | false whenever the stack top is a parenthesis; for two operators, true exactly when the top's tier is at least the incoming one's (equal tiers apply first, giving left associativity) |
| Evaluator.ApplyOp | src/CalculatorGUI.java:140-154 | fails exactly for '/' with right operand 0, and then with DivisionByZero; any non-operator yields 0 |
| Evaluator.ApplyTopOperator | src/CalculatorGUI.java:116 | pops one operator and two operands and pushes one result, leaving the stacks below unchanged; fewer than two operands is Malformed |
| Evaluator.ReduceToParen | src/CalculatorGUI.java:114-117 | fails whenever no '(' is on the operator stack |
| Evaluator.ReduceToParenPops | src/CalculatorGUI.java:114-117 | on success the operators left are exactly those below the topmost '(', no '(' lay above it, that '(' is discarded without being applied, and one operand is consumed per operator applied |
| Evaluator.PushOperator | src/CalculatorGUI.java:118-121 | on success the operator stack is a prefix of the old one plus the incoming operator, the operator left below it does not have precedence, and one operand is consumed per operator applied |
| Evaluator.PushOperatorPops | src/CalculatorGUI.java:118-121 | every operator the loop removed had precedence over the incoming operator |
| Evaluator.DrainAndPop | src/CalculatorGUI.java:125-128 | success needs more operands than operators; with no operators it succeeds iff an operand exists, and the result is the top operand (the ones below are ignored) |
| Evaluator.NumberRunLength | src/CalculatorGUI.java:106-108 | a number token is the maximal run of digits and '.', and the scan resumes at the first other character |
| Evaluator.ScanJoin | src/CalculatorGUI.java:101-122 | scanning p + q is scanning p and then q from the stacks p left, when no number straddles the junction |
| Evaluator.SkippedCharacter | src/CalculatorGUI.java:102-122 | a space or any other character that is no digit, '.', parenthesis or operator produces no token: removing it does not change the result unless it separates two number runs (`1 2` is 2, `12` is 12) |
| Evaluator.RunCloseParen | src/CalculatorGUI.java:114-117 | the `)` loop computes ReduceToParen |
| Evaluator.RunOperator | src/CalculatorGUI.java:118-121 | the operator loop and push compute PushOperator |
| Evaluator.RunDrain | src/CalculatorGUI.java:125-128 | the final loop and pop compute DrainAndPop |
| Evaluator.ReadNumber | src/CalculatorGUI.java:106-109 | the inner loop collects exactly the maximal number run and stops just past it |
| Evaluator.ScanStep | src/CalculatorGUI.java:103-122 | one pass of the loop body moves the index past the current token, and the scan of the rest from the new stacks has the same outcome as before; a failing token yields the scan's own failure |
| Evaluator.EvaluateExpression | src/CalculatorGUI.java:97-129 | the loop program returns exactly Evaluate(expression) |
| Grammar.OnlyDivisionFails | src/CalculatorGUI.java:148-150 | the value of a well-formed tree can fail only by a division by zero |
| Grammar.ApplyTopOperatorOrder | src/CalculatorGUI.java:140-151 | with operands a then b pushed and `op` on top, applying the top operator computes `a op b`: the left-to-right operand order is preserved |
| Grammar.PushAddOnPending | src/CalculatorGUI.java:118-121 | an incoming '+' or '-' applies all operators pending in the current sum and stops at '(' or the bottom |
| Grammar.PushMulOnPending | src/CalculatorGUI.java:118-121 | an incoming '*' or '/' applies a pending '*' or '/' but never a '+' or '-' below it |
| Grammar.CloseOnPending | src/CalculatorGUI.java:114-117 | a ')' applies the pending operators of the group and removes its '(' |
| Grammar.DrainOnPending | src/CalculatorGUI.java:125-128 | the drain applies the pending operators of a sum and then continues with whatever lies below them |
| Grammar.ScanLiteral | src/CalculatorGUI.java:106-111 | a well-formed literal is read as one token and pushes its value |
| Grammar.ScanOperator | src/CalculatorGUI.java:103-121 | an operator with its surrounding spaces runs that operator's loop once; the spaces produce nothing |
| Grammar.ScanBinary | src/CalculatorGUI.java:101-122 | scanning `l op r` scans l, runs the loop of op, then scans r |
| Grammar.ScanGroup | src/CalculatorGUI.java:112-117 | scanning `(inner)` pushes '(', scans inner above it, then runs the ')' loop |
| Grammar.FactorRun | src/CalculatorGUI.java:101-122 | scanning a literal or a parenthesised sum pushes exactly its value |
| Grammar.TermRun | src/CalculatorGUI.java:101-122 | scanning a product leaves at most one '*' or '/' pending, and those pending operators mean the product's value |
| Grammar.TermRight | src/CalculatorGUI.java:118-121 | the right factor of a product, read after its operator was pushed, leaves that operator pending with both operands, meaning left op right |
| Grammar.SumRight | src/CalculatorGUI.java:118-121 | the right term of a sum, read after its '+' or '-' was pushed, leaves pending operators meaning left op right |
| Grammar.SumRun | src/CalculatorGUI.java:101-122 | scanning a sum leaves at most one '+'/'-' and one '*'/'/' pending, and those pending operators mean the sum's value |
| Grammar.DrainAfterSum | src/CalculatorGUI.java:125-128 | a sum scanned above some stacks and then drained leaves its value on those stacks, or fails exactly as its value does |
| Grammar.EvaluatePrinted | src/CalculatorGUI.java:97-138 | for every tree following the precedence grammar, evaluating its displayed text gives the tree's value, or DivisionByZero exactly when the tree divides by zero |
| Behaviour.MulBindsTighter | src/CalculatorGUI.java:131-138 | for any literals that parseDouble reads as x, y, z, `a + b * c` evaluates to x + y * z |
| Behaviour.ParenthesesGroup | src/CalculatorGUI.java:112-117 | for any such literals, `(a + b) * c` evaluates to (x + y) * z |
| Behaviour.SubtractionLeftAssociative | src/CalculatorGUI.java:118-121 | for any such literals, `a - b - c` evaluates to (x - y) - z |
| Behaviour.PrecedenceExample | src/CalculatorGUI.java:131-138 | "2 + 3 * 4" evaluates to 14 |
| Behaviour.GroupingExample | src/CalculatorGUI.java:112-117 | "(2 + 3) * 4" evaluates to 20 |
| Behaviour.LeftAssociativityExample | src/CalculatorGUI.java:118-121 | "9 - 2 - 3" evaluates to 4 |
| Behaviour.DivisionByZeroFails | src/CalculatorGUI.java:148-150 | a product `l / r` whose right factor is 0 fails with DivisionByZero |
| Behaviour.BlankInputFails | src/CalculatorGUI.java:102-128 | input made only of spaces or unrecognised characters (the empty input included) fails |
| Behaviour.SkipGap | src/CalculatorGUI.java:102-122 | a gap of spaces or unrecognised characters is passed over by the scan |
| Behaviour.ScanOpen | src/CalculatorGUI.java:112-113 | illustrates the definition of the scan: a '(' is pushed onto the operator stack and nothing else changes |
| Behaviour.UnclosedParenFails | src/CalculatorGUI.java:125-128 | "(" followed by any well-formed expression fails: Malformed, or DivisionByZero if the expression divides by zero |
| Behaviour.CloseWithoutParen | src/CalculatorGUI.java:114-115 | a ')' with no '(' below the pending operators applies them and then fails peeking the empty operator stack |
| Behaviour.StrayCloseParenFails | src/CalculatorGUI.java:114-115 | a well-formed expression followed by ')' fails: Malformed, or DivisionByZero if the expression divides by zero |
| Behaviour.LeadingOperatorFails | src/CalculatorGUI.java:118-128 | there is no unary sign: an operator before any well-formed expression (`-2 + 3`, `* 5`) always makes the evaluation fail, as Malformed whenever the expression has a value, and otherwise as Malformed or as the expression's own division by zero |
| Behaviour.RejectedLiteralFails | src/CalculatorGUI.java:106-110 | a digit/point run that parseDouble rejects fails the whole evaluation wherever it stands, once the scan before it succeeded |
| Behaviour.RejectedLiterals | src/CalculatorGUI.java:110 | "1.2.3" and "." are runs parseDouble rejects |
| Behaviour.FactorFirst | src/CalculatorGUI.java:106-117 | a leading literal or group leaves exactly its value on the operand stack |
| Behaviour.ExtraOperandIgnored | src/CalculatorGUI.java:125-128 | a factor, a gap of spaces and an expression ("1 2") evaluate to the expression's value alone: operands below the top are ignored |
| Behaviour.StrayOpenParenYieldsZero | src/CalculatorGUI.java:125-128 | a factor followed by '(' and an expression ("1(2") evaluates to 0 when both values exist |
| Behaviour.DrainStrayParen | src/CalculatorGUI.java:140-153 | the drain applies a leftover '(' above two operands through applyOp's default case, giving 0 |
| Display.ShownPrinted | src/CalculatorGUI.java:80-87 | "=" on the text of any well-formed expression shows the formatted value of that expression, and "Error" exactly when it divides by zero |
| Display.Backspace | src/CalculatorGUI.java:75-79 | a non-empty text loses exactly its last character; an empty one is unchanged |
| Display.AppendDot | src/CalculatorGUI.java:88-91 | the old text is kept as a prefix and one '.' is appended exactly when the old text had none; the result holds a '.' |
| Display.Calculator.constructor | src/CalculatorGUI.java:21 | the display starts empty |
| Display.Calculator.Press | src/CalculatorGUI.java:68-95 | actionPerformed sets the text to Pressed(old text, command) |
| Display.Calculator.Type | src/CalculatorGUI.java:157-183 | keyTyped sets the text to Typed(old text, character) |
| Display.Calculator.PressDecimalKey | src/CalculatorGUI.java:198-201 | the keypad point key appends '.' only when the text has none |
| Display.Calculator.PressBackSpaceKey | src/CalculatorGUI.java:202-206 | the backspace key removes the last character of a non-empty text |
| Display.Calculator.Erase | src/CalculatorGUI.java:75-79 | removes the last character of a non-empty text |
| Display.Calculator.Calculate | src/CalculatorGUI.java:80-87 | replaces the text by the formatted result of evaluating it, or by "Error" |
| Display.BackspaceUndoesPress | src/CalculatorGUI.java:71-79 | Backspace after a digit or parenthesis button restores the previous text |
| Display.BackspaceUndoesType | src/CalculatorGUI.java:159-173 | a typed backspace after a typed digit, parenthesis or point restores the previous text |
| Display.BackspaceKeepsDots | src/CalculatorGUI.java:75-79 | backspace never adds a '.' |
| Display.ButtonsKeepOneDot | src/CalculatorGUI.java:30 | with the twenty buttons alone the display never holds two '.', provided the formatting of a result holds at most one |
| Display.DotButtonBlocked | src/CalculatorGUI.java:88-91 | illustrates the definition of the '.' button: it does nothing once the display holds a point anywhere, even in an earlier number |
| Display.TypedDotUnguarded | src/CalculatorGUI.java:159-160 | a typed '.' always adds a point, whatever the text holds |
| Display.SpacedOperatorSameResult | src/CalculatorGUI.java:93 | the spaces put around an operator do not change the value of the display |
| Display.OperatorButtonMatchesKey | src/CalculatorGUI.java:161-168 | an operator button and the same typed operator edit the display identically |

## Left out

- Swing construction, layout, the icon, `main` and `keyReleased`: user-interface plumbing with no logic.
- `toggleMode`: colour theming only.
- `String.valueOf(double)`: result formatting depends on Java's double-to-string algorithm, so the display model takes it as a parameter `show`.
- IEEE-754 arithmetic: numbers are mathematical reals. Rounding, overflow to infinity and NaN are not modelled. `parseDouble` gives the exact decimal value.
- Display.Calculator.Type: `Character.isDigit` accepts every Unicode decimal digit, but the model accepts only '0'..'9'. A non-ASCII digit would be appended to the text and then skipped by the scan.
- `keyPressed`: only the keypad decimal-point and backspace branches are modelled. The keypad digits, operators and Enter are key-code plumbing that repeat the typed-key rules.
- AWT delivers a key press and the typed character for the same physical key to both `keyPressed` and `keyTyped`. How these two interleave is not modelled: each handler is a separate operation.
- Exceptions other than an empty stack, a rejected literal and division by zero cannot arise on this code path. All of them end in the same "Error" display.
- The code checks neither that exactly one operand remains at the end nor that every '(' was closed: it returns the top operand and applies a leftover '(' as 0. The model follows the code (Behaviour.ExtraOperandIgnored, Behaviour.StrayOpenParenYieldsZero, Behaviour.UnclosedParenFails).
