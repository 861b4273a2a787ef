# Calculator expression evaluator, modelled in Dafny

This project models the arithmetic core of a small Python desktop calculator:
`Calculator.evaluate_expression` (main.py:80-117). It takes an expression typed
as text and works in four stages:

1. It tokenizes the text with the regular expression `(\d+\.?\d*)|([+\-*/()])`.
2. It evaluates the tokens with two stacks: operands and pending operators.
   Precedence comes from the class table: `+` and `-` bind with 1, `*` and `/`
   with 2.
3. It calls the registered `Addition`, `Subtraction`, `Multiplication` and
   `Division` operations for each reduction.
4. It returns the bottom operand, rounded to two decimals by
   `decimal_precision_decorator`.

The modules follow those stages:

- `faults.dfy` (`Faults`) holds the outcome of an evaluation: a value, or one
  of the three Python exceptions the code can raise.
  - `ValueError` comes from `Division.perform`.
  - `IndexError` comes from a pop on an empty list, `operator_stack[-1]` or
    `numbers[0]`.
  - `KeyError` comes from looking up `'('` in the operations table.
- `operations.dfy` (`Operations`) holds:
  - the four variadic `perform` methods;
  - their binary meaning;
  - the precedence table.
- `lexer.dfy` (`Lexer`) holds:
  - the tokenizer: greedy numerals, single symbols, every other character
    skipped;
  - the exact value of a numeral, and its reading as an integer over a
    power of ten;
  - a printer (`Spell`) that lays tokens out with skipped text in front
    and between them, and the theorem that tokenizing a printout gives the
    tokens back. Skipped text has no digits or symbols, and no `.` right
    after a numeral that has none.
- `rounding.dfy` (`Rounding`) holds `round(x, 2)`: nearest value with two
  decimals, ties to even.
- `evaluator.dfy` (`Evaluator`) holds:
  - the operand and operator stacks;
  - the shared reduction step;
  - the three loops: before pushing an operator, on `')'`, and the final
    drain;
  - the whole evaluation.
- `infix.dfy` (`Infix`) is an independent reference semantics. It has
  expression trees with the usual meaning of the four operators, printed with
  the fewest parentheses the precedence table needs. The main theorem,
  `EvaluateRender`, says the two-stack loop computes the value of every
  printed tree. That gives precedence and left associativity for every
  expression written with minimal parentheses; `EvaluateParenthesized`
  adds one redundant pair around the whole. `EvaluateText` carries the
  result from text to the rounded value.
- `samples.dfy` (`Samples`) derives the concrete behaviour on representative
  inputs (`"2+3*4"`, `"(2+3)*4"`, `"20-5-5"`, `"10/3"`, `"5/0"`, `"2 3"`,
  `"(1+2"`, …) from those theorems.

Each evaluation starts from empty stacks, and every member is a pure function.
So the same text always gives the same outcome.

## Model

| member | source | states |
|---|---|---|
| Operations.Sum | main.py:23-24 | Python's `sum`, which adds from the left starting at 0, equals the first operand plus the sum of the rest, as `args[0] - sum(args[1:])` uses it. |
| Operations.Perform | main.py:19-53 | `perform(*args)` on any number of operands fails with ValueError exactly when it is a division and some operand after the first is zero. It fails at all exactly in that case, or when subtraction or division gets no operand (IndexError from `args[0]`). |
| Operations.Product | main.py:39-43 | The running product of `Multiplication.perform` and `math.prod` is zero exactly when some operand is zero. |
| Operations.Apply | main.py:50-53 | The binary meaning of an operator fails only for a division by zero, and then with ValueError. |
| Operations.PerformBinary | main.py:23-53 | On the two operands the evaluator passes, `perform(num1, num2)` is `num1 op num2`. Subtraction and division are never reversed, and only a zero divisor fails. |
| Operations.Precedence | main.py:57 | Every operator has precedence 1 or 2, and 2 exactly for `*` and `/`. |
| Lexer.DigitRun | main.py:85 | `\d*` matches the longest run of digits at the front of the text. |
| Lexer.NumeralLength | main.py:85 | The greedy match of `\d+\.?\d*` is a numeral with at most one `.`. It cannot be extended by a further digit, nor by a `.` when it has none yet. |
| Lexer.Tokenize | main.py:85 | `re.findall` yields only well-formed tokens: every number lexeme is a numeral. |
| Lexer.SkipNoise | main.py:85 | Characters that cannot start a token (no digit and no symbol, a stray `.` included) produce no token and do not change the tokens that follow. |
| Lexer.NumberFront | main.py:85 | A numeral followed by text that cannot continue it is read as exactly one number token, and tokenizing resumes after it. That text may start with a `.` when the numeral already has one. |
| Lexer.SymbolToken | main.py:85 | Each of `+ - * / ( )` becomes a symbol token, never a number, whose lexeme is that one character. |
| Lexer.SymbolFront | main.py:85 | Each of `+ - * / ( )` is read as its own one-character token. |
| Lexer.TokenizeFront | main.py:85 | Any well-formed token in front of text that cannot continue it is read back as that token. |
| Lexer.TokenizeSpell | main.py:85 | Round trip: tokenizing a layout of well-formed tokens gives the same tokens back. The layout may put any text without digits or symbols in front and between the tokens, keeps adjacent numbers apart, and puts no `.` right after a numeral that has none, since that `.` would join it. |
| Lexer.NumeralValue | main.py:88-89 | `float(token[0])` of a numeral lies between its integer part and the next integer. |
| Lexer.NumeralScaled | main.py:88-89 | `float(token[0])` of a numeral is the integer its digits spell with the `.` removed, divided by ten to the number of digits after the `.`. |
| Rounding.RoundHalfEven | main.py:62 | The nearest integer, within one half. On a tie it is the even neighbour. |
| Rounding.Round2 | main.py:59-63 | `round(x, 2)` has at most two decimals and is within half a cent of `x`. A value that already has two decimals is unchanged. |
| Evaluator.ReduceTop | main.py:93-97 | One reduction pops the operator, `num2` and `num1`, performs `num1 op num2` and pushes the result. Nothing below the two operands changes. Fewer than two operands raise IndexError, which comes before the KeyError of a `'('`. A division by zero raises ValueError. |
| Evaluator.ReduceWhileHigher | main.py:91-98 | The loop before an operator reduces exactly the run of operators above the nearest `'('` that bind at least as tightly. It leaves a prefix of the stack on which the loop condition fails, with one operand consumed per operator. When the condition already fails, it changes nothing. |
| Evaluator.CloseParen | main.py:101-108 | A `')'` removes exactly the nearest `'('` and the operators above it, consuming one operand per operator. Without any `'('` it always fails: a reduction fails first, or `operator_stack[-1]` is read on an empty list. |
| Evaluator.Drain | main.py:110-115 | The final loop empties the operator stack, consuming one operand per operator. A `'('` left anywhere on the stack always makes it fail. |
| Evaluator.Step | main.py:87-108 | One token. A number's value is pushed onto the operands, and a `'('` onto the operators, with everything else unchanged and no failure. Only a number adds an operand. An operator ends up on top of the stack, above an entry that binds more loosely, a `'('`, or nothing. |
| Evaluator.Run | main.py:87-108 | The token loop adds at most one operand per token, and it can only fail at an operator or a `')'`. |
| Evaluator.RunWithoutNumbers | main.py:87-108 | With no number token, the operand stack stays empty, and the only failure possible is IndexError. |
| Evaluator.EvaluateTokens | main.py:82-117 | An input without any number token, the empty input included, fails with IndexError. |
| Evaluator.Evaluate | main.py:80-117 | A successful result always has at most two decimals and is within half a cent of the unrounded evaluation of the tokens. Evaluation succeeds exactly when the unrounded evaluation does, and otherwise fails with the same exception. |
| Infix.RunAppend | main.py:87-108 | The token loop over two sequences in a row is the loop over the first, then over the second from where it stopped. The first failure stops it. |
| Infix.CloseParenAsReduce | main.py:91-108 | The `')'` loop is the operator loop with the lowest precedence, followed by popping the `'('`, or IndexError when none is left. |
| Infix.DrainAsReduce | main.py:91-115 | The drain loop is the operator loop with the lowest precedence. A `'('` it stops at fails with IndexError when fewer than two operands are left, and with KeyError otherwise. |
| Infix.ReduceBinary | main.py:91-97 | Two operands under an operator binding at least `p` are combined, left operand first, and the reduction continues below. |
| Infix.RunBracketed | main.py:99-108 | Tokens between `(` and `)` run above a fresh `'('`, which the `)` then closes. |
| Infix.RunParenthesized | main.py:99-108 | A parenthesized expression leaves exactly its value on the operand stack and the operator stack as it found it. |
| Infix.RunOperand | main.py:87-108 | An operand, parenthesized or not, followed by an operator of lower or equal precedence: its value is pushed and reduction continues below it. |
| Infix.LeftOperand | main.py:87-98 | A left operand and its operator push the operand's value and then the operator. Nothing already stacked is reduced. |
| Infix.PushRight | main.py:91-97 | Pushing a right operand above its left operand and operator, then reducing, applies the operator. |
| Infix.RightOperand | main.py:87-108 | A right operand after its operator makes the operator apply to the two values, and reduction continues below. |
| Infix.RunRender | main.py:87-108 | Loop invariant: running the tokens of any printed expression and then reducing down to `p` equals pushing the expression's value and reducing down to `p`. |
| Infix.EvaluateRender | main.py:81-117 | The two-stack evaluation computes the value of every expression printed with minimal parentheses. `*` and `/` bind tighter than `+` and `-`, equal precedence associates to the left, and a division by zero anywhere fails with ValueError. |
| Infix.EvaluateParenthesized | main.py:99-117 | One more pair of parentheses around a printed expression leaves its value unchanged. |
| Infix.RenderWellFormed | main.py:85 | A printed expression whose literals are numerals consists of well-formed tokens. |
| Infix.EvaluateText | main.py:80-117 | Any text spelling such an expression in such a layout evaluates to the expression's value rounded to two decimals. The text may have characters without digits or symbols in front and between the tokens, with a `.` only where it cannot join a numeral. |
| Infix.DrainAfterRender | main.py:110-115 | Draining after an expression's tokens is draining with its value pushed. |
| Infix.LeadingNumberWins | main.py:117 | A number followed by a whole expression yields that number when the expression itself evaluates; otherwise the expression's ValueError propagates. Only `numbers[0]` is returned, and extra operands are ignored. |
| Infix.UnclosedParenFails | main.py:110-115 | An unclosed `(` around an expression fails with IndexError in the drain loop when the expression itself evaluates; otherwise the expression's ValueError propagates. |
| Infix.StrayCloseFails | main.py:101-108 | A `)` after a complete expression, with no `(` to match, fails with IndexError when the expression itself evaluates; otherwise the expression's ValueError propagates. |
| Samples.WholeNumeral | main.py:89 | A numeral without `.` denotes the integer its digits spell. |
| Samples.TimesBindsTighter | main.py:57 | `"2+3*4"` gives 14. |
| Samples.ParenthesesFirst | main.py:99-108 | `"(2+3)*4"` gives 20. |
| Samples.MinusAssociatesLeft | main.py:91-92 | `"20-5-5"` gives 10. |
| Samples.QuotientRounded | main.py:59-63 | `"10/3"` gives 3.33. |
| Samples.QuotientExact | main.py:59-63 | `"10/4"` gives 2.5. |
| Samples.DivideByZero | main.py:50-52 | `"5/0"` fails with ValueError. |
| Samples.NoiseSkipped | main.py:85 | `"sum: 2 + 3"` gives 5. |
| Samples.OneAndAHalf | main.py:89 | The numeral `"1.5"` denotes 1.5. |
| Samples.DecimalLiteral | main.py:85-89 | `"1.5*2"` gives 3. |
| Samples.StrayPointSkipped | main.py:85 | `".5+1"` gives 6: the `.` cannot start a numeral and is skipped. |
| Samples.PointAfterSymbolSkipped | main.py:85 | `"3*.5"` gives 15: a `.` after a symbol is skipped. |
| Samples.SecondPointSkipped | main.py:85-89 | `"2.5.3"` reads as the numbers 2.5 and 3 and gives 2.5: a second `.` cannot join a numeral. |
| Samples.UnclosedFails | main.py:110-115 | `"(1+2"` fails with IndexError. |
| Samples.StrayFails | main.py:101-108 | `"1+2)"` fails with IndexError. |
| Samples.ExtraOperandIgnored | main.py:117 | `"2 3"` gives 2. |
| Samples.StackTwo | main.py:87-98 | Two numbers and an operator leave both operands stacked, with the operator above them. |
| Samples.DrainTwo | main.py:110-115 | Draining one operator over two operands applies it, left operand first. |
| Samples.OperatorLast | main.py:87-117 | An operator written after both its operands is still applied to them, by the drain loop. |
| Samples.PostfixAccepted | main.py:110-117 | `"2 3 +"` gives 5. |
| Samples.NothingToEvaluate | main.py:82-117 | `""` and `"+-()"` fail with IndexError. |

## Left out

- The tkinter login window and calculator window, `users.json`, and the
  appending and saving of results to files are user interface and file I/O.
  None of it reaches the evaluator.
- The singleton `Calculator.__new__` and `register_operation` (main.py:65-78)
  are not modelled. The four operations are registered once, with fixed
  symbols, and no other registration happens. The registry is therefore the
  fixed `Op` datatype, and a lookup of `'('` is the KeyError case.
- Floating point: numbers are exact reals, not binary doubles. Overflow,
  infinities, NaN and representation error are not modelled.
- Rounding.Round2: applies Python's ties-to-even rule to the exact real value.
  Python rounds the nearest binary double, so on inputs whose decimal value
  is an exact tie (such as 2.675) the source can round the other way.
- Lexer.NumeralValue: gives the exact decimal value of the lexeme, not the
  nearest double that `float()` returns.
- Lexer.Tokenize: `\d` is modelled as the ASCII digits `0`-`9`. Python's `\d`
  also matches other Unicode decimal digits.
- The failures are the Python exceptions the code raises (ValueError,
  IndexError, KeyError), not separate error kinds for unbalanced parentheses,
  malformed expressions and empty input. The code is lenient where such a
  taxonomy would fail, and the model follows the code:
  - `"2 3"` returns 2, because only `numbers[0]` is read;
  - `"2 3 +"` returns 5;
  - a `'('` left open fails in the drain loop with IndexError or KeyError,
    unless a division by zero inside raises ValueError first.
- Unary minus is not special-cased, as in the source. `"-5"` runs the drain
  loop with one operand and fails with IndexError.
