# A verified model of befunge.py

befunge.py is a Befunge-93 interpreter written in Python. It has three parts:

- A `Lexer` holds the program rows, a cursor `(xpos, ypos)` and a direction `(dx, dy)`. Its `tokens` generator reads the character under the cursor and yields digit, command and end-of-file tokens. After a digit or command token it advances the cursor (line 108); the end-of-file token and `@` end the run with the cursor still on that cell. A quote switches it into the `string` generator, which yields one string token per character up to the closing quote.
- A `Command` class hierarchy has one subclass per command character. Each subclass has an `execute` method that acts on the interpreter's data stack, its output list, the lexer's direction and cursor, or the program grid.
- A `BefungeInterpreter` reads the program text and consumes the tokens. It pushes digits and string characters, executes commands, and stops at `@` or at the end-of-file token. It returns the concatenated output.

The model has three layers.

- **Pure semantics.** The modules `PyOps`, `Commands`, `Scanning` and `Semantics` describe the interpreter's meaning as functions:
  - one machine state;
  - `Execute` for one command;
  - `Step` for one turn of the loop;
  - `Run`, a run bounded by a step count.

  The Python behaviour the code relies on is written out explicitly:
  - negative indices wrap around;
  - `//` and `%` round toward minus infinity;
  - `"{:d}"`, `"{:c}"`, `chr` and `str.split('\n')`;
  - the exceptions each operation raises.
- **Imperative layer.** The modules `Lexing` and `Interpreting` hold the two classes, whose fields are updated in place. Every method's postcondition says that the state it leaves is the state the pure semantics computes. When a method raises, its postcondition names the exception but not the state the object is left in, because the exception ends the run. `BefungeInterpreter.Interpret` is the token loop, with its invariant. It returns what `Semantics.Run` gives, and it leaves the object in the state `Semantics.Settle` gives.
- **Proofs.** `Properties`, `AsWritten` and `Examples` prove:
  - what each command does to the stack, the direction and the grid;
  - that the direction stays one of the four unit steps;
  - how the cursor moves;
  - how string mode reads a quoted run, in any direction;
  - that output is only ever appended;
  - that `p` then `g` reads back what was stored;
  - that any row of digits followed by as many dots prints the digits reversed, so `123...` prints `321`;
  - that the program of the source's test prints `40320`.

Characters are code points, which is the element type of a Python `str`. Integers are unbounded, as Python's `int` is; the one limit CPython puts on printing them is listed under "Left out". The random source that `?` consults is a parameter: step `i` of a run receives `draws[i]`. A run is bounded by a step count (`fuel`) and returns `OutOfFuel` when the count is exhausted.

Three places where the model departs from a literal reading of the text:

- **`|`.** Its docstring (line 311) says to move up when the value is zero. The code (line 316) heads down when it is zero and up otherwise. The model follows the code, which is also standard Befunge-93.
- **`p`.** As written, `p` cannot store anything. **`?`.** As written, `?` cannot choose a heading. Both are described under "Findings". The rest of the model uses the corrected behaviour that their docstrings describe.
- **`interpret` called twice on the same object.** A second call keeps the stack, the output, the cursor and the direction `(dx, dy)`. It starts a fresh token generator, so scanning starts outside string mode. The model does the same: `BefungeInterpreter.Interpret` keeps the object valid and states the state it leaves behind, so a second call starts from that state.

## Model

| member | source | states |
|---|---|---|
| PyOps.PyIndex | befunge.py:95 | Python indexing of a length-n sequence: defined exactly for -n <= i < n; a negative index counts from the end |
| PyOps.FloorDivision | befunge.py:226-248 | floor quotient and remainder recombine to b; the remainder is zero or has the divisor's sign and is smaller in magnitude |
| PyOps.FloorDiv | befunge.py:231-232 | definition of Python's `b // a` (rounded toward minus infinity) on Dafny's Euclidean division; its properties are stated by PyOps.FloorDivision |
| PyOps.FloorMod | befunge.py:247-248 | definition of Python's `b % a` (the sign of the divisor); its properties are stated by PyOps.FloorDivision |
| PyOps.DigitsOf | befunge.py:276-279 | a non-negative integer's decimal digits: non-empty, all digits, and no leading zero: a leading 0 only in the numeral "0" of the value 0 |
| PyOps.DigitsRoundTrip | befunge.py:276-279 | the digits of n read back as n |
| PyOps.FormatInt | befunge.py:276-279 | definition of `"{:d}".format(v)`: a minus sign for a negative v, then the digits of abs(v); its properties are stated by PyOps.FormatIntRoundTrip |
| PyOps.FormatIntRoundTrip | befunge.py:276-279 | the `{:d}` text of any integer is a well-formed numeral that starts with a minus sign exactly for a negative integer and reads back as that integer |
| PyOps.FormatChar | befunge.py:282-285 | `{:c}` succeeds exactly for code points and then yields that one character; on every other value it raises OverflowError |
| PyOps.Chr | befunge.py:370 | `chr` succeeds exactly for code points and returns that code point; on every other value it raises ValueError |
| PyOps.SplitLines | befunge.py:57-59 | `split('\n')` gives at least one row and no row contains a line break |
| PyOps.JoinSplit | befunge.py:57-59 | joining the split rows with line breaks gives back the text |
| PyOps.JoinLines | befunge.py:57-59 | definition of `'\n'.join(rows)`, the inverse of the split; related to SplitLines by PyOps.JoinSplit and PyOps.SplitJoin |
| PyOps.SplitJoin | befunge.py:57-59 | rows free of line breaks are exactly what splitting their join gives back |
| PyOps.SplitOneLine | befunge.py:57-59 | a text without a line break is a single row |
| PyOps.SplitAtNewline | befunge.py:57-59 | the first line break ends the first row and the rest splits independently |
| Commands.DirectionSteps | befunge.py:160-189 | each of the four arrows stores a unit step, and distinct arrows store distinct steps |
| Commands.Operate | befunge.py:192-248 | definition of each BinaryOperator's `operate(a, b)`; its properties are stated by Commands.DivideModuloAgree, Commands.GreaterThanIsBoolean and Properties.BinaryOperatorEffect |
| Commands.Negate | befunge.py:260-265 | `!` yields 1 exactly for 0 and 0 exactly for non-zero |
| Commands.DivideModuloAgree | befunge.py:226-248 | `/` and `%` push 0 for a zero divisor; otherwise b == a*(b/a) + b%a with the remainder on a's side |
| Commands.GreaterThanIsBoolean | befunge.py:235-240 | `` ` `` yields 1 exactly when b > a and 0 otherwise |
| Commands.Lexeme | befunge.py:152-392 | definition of each command class's `token` character; tied to the table by Commands.TableInverse |
| Commands.Lookup | befunge.py:140-149 | definition of `Command.dict()`, the table from token to command; Commands.TableInverse states it is the inverse of Lexeme |
| Commands.TableInverse | befunge.py:140-149 | the command table maps each command's token to that command and no other character to it |
| Commands.TableAvoidsDigitsAndQuote | befunge.py:99-107 | no digit and no quote is a table key, so the lexer's order of tests shadows no command |
| Commands.GetCommand | befunge.py:407-412 | a table key gives its command; any other character gives the no-op |
| Commands.RandomHeading | befunge.py:320-326 | definition of the heading `?` takes for a draw (the corrected `?`); its properties are stated by Commands.RandomHeadingResidues and Commands.EveryHeadingReachable |
| Commands.RandomHeadingResidues | befunge.py:320-326 | each of the four headings is picked by exactly one residue of the draw modulo 4, so equally many draws lead to each |
| Commands.EveryHeadingReachable | befunge.py:320-326 | each of the four headings is chosen by some draw |
| Scanning.Locate | befunge.py:67-74 | `program[y][x]` resolves exactly when y indexes a row and x indexes that row, negative indices included; it then resolves to the row PyIndex gives for y and the column PyIndex gives for x in that row |
| Scanning.Cell | befunge.py:95-98 | reading a cell succeeds exactly where indexing resolves, and then yields the element at the resolved row and column |
| Scanning.SetCell | befunge.py:370 | writing a cell succeeds exactly where indexing resolves |
| Scanning.SetThenCell | befunge.py:359-382 | a written cell reads back the value; the grid keeps its shape; every other cell is unchanged |
| Scanning.Classify | befunge.py:76-108 | definition of what the lexer makes of one cell in each mode; its cases are stated both ways by Scanning.ClassifyCases |
| Scanning.ClassifyCases | befunge.py:76-108 | both directions for every kind of cell. Outside string mode: a missing cell ends the run; a digit gives its value; a quote opens string mode; a table key gives a command token; anything else raises SyntaxError. Inside string mode: a missing cell raises SyntaxError, a quote closes string mode, and any other character gives a string token |
| Scanning.CommandTokensAreKeys | befunge.py:407-412 | every command token is a table key, so get_command never falls back to the no-op |
| Semantics.Load | befunge.py:455-459 | the initial state's grid is the text's rows, has at least one row and joins back to the text; the cursor is at (0, 0) heading right, outside string mode, with an empty stack and an empty output |
| Semantics.Execute | befunge.py:152-392 | definition of every command's `execute()`, with the IndexError of each unguarded pop; its effects are stated per command in Properties (BinaryOperatorEffect to PutThenGet) |
| Semantics.Step | befunge.py:90-108 | definition of one turn of the token loop (lines 460-475) with the lexer's work around it; its properties are stated by Properties.StepMovesOnce, StepKeepsCardinal, StepAppendsOutput and the lemmas on how a run ends |
| Semantics.Joined | befunge.py:476 | definition of `"".join(self._output)`; Properties.JoinedAppend states it concatenates in emission order |
| Semantics.Run | befunge.py:460-476 | definition of the loop bounded by `fuel` turns; its properties are stated by Semantics.RunTakesStep, Properties.RunAfterSteps and the lemmas on how a run ends |
| Semantics.RunTakesStep | befunge.py:460-476 | a run with steps left takes one turn and continues from its outcome |
| Semantics.RunContinues | befunge.py:460-476 | after a turn that continues, the rest of the run gives the whole run's result and leaves the same final state |
| Semantics.HaltSettles | befunge.py:469-475 | a turn that halts leaves its state as the run's final state |
| Semantics.Settle | befunge.py:460-476 | definition of the state a run leaves behind; related to Run by Semantics.SettleAgrees |
| Semantics.SettleAgrees | befunge.py:460-476 | a run raises exactly when it leaves no final state, and a finished run returns the joined output of the state it halted in |
| Semantics.Interpretation | befunge.py:479-481 | definition of the top-level `interpret(str)`: a bounded run from Load(text); Interpreting.Interpret is proved to return it |
| Lexing.Lexer.constructor | befunge.py:44-55 | a new lexer has no program, is at (0, 0) heading right, and is outside string mode |
| Lexing.Lexer.Read | befunge.py:57-59 | the program becomes the text's rows, whose join is the text |
| Lexing.Lexer.Advance | befunge.py:61-64 | the cursor moves by (dx, dy) |
| Lexing.Lexer.At | befunge.py:67-74 | returns exactly the cell Python indexing reads, or nothing where it raises IndexError |
| Lexing.Lexer.CurrentCharacter | befunge.py:67-74 | the character under the cursor, or nothing where indexing raises |
| Lexing.Lexer.Scan | befunge.py:90-108 | what the current cell yields is the pure classification of that cell in the current mode |
| Interpreting.BefungeInterpreter.constructor | befunge.py:423-427 | a fresh lexer, an empty stack and an empty output |
| Interpreting.BefungeInterpreter.Pop | befunge.py:430-432 | returns the top and removes it; on an empty stack raises IndexError and leaves the stack unchanged |
| Interpreting.BefungeInterpreter.Pop2 | befunge.py:435-438 | the top two in pop order with both removed, or IndexError on fewer than two |
| Interpreting.BefungeInterpreter.Push | befunge.py:441-443 | the value is appended on top |
| Interpreting.BefungeInterpreter.Peek | befunge.py:446-448 | the top without popping, or IndexError on an empty stack |
| Interpreting.BefungeInterpreter.Output | befunge.py:451-453 | the piece is appended to the output |
| Interpreting.BefungeInterpreter.Aim | befunge.py:160-165 | the lexer's direction becomes the heading's unit step |
| Interpreting.BefungeInterpreter.Execute | befunge.py:152-392 | for every command, the new interpreter state is the one Semantics.Execute gives, or the method raises what it raises; the direction stays a unit step |
| Interpreting.BefungeInterpreter.ExecuteBinary | befunge.py:192-199 | pops a then b and pushes operate(a, b), as Semantics.Execute, or raises IndexError |
| Interpreting.BefungeInterpreter.ExecuteNot | befunge.py:251-265 | pops a and pushes its negation, as Semantics.Execute |
| Interpreting.BefungeInterpreter.ExecuteOutputInteger | befunge.py:268-279 | pops v and outputs its decimal numeral, as Semantics.Execute |
| Interpreting.BefungeInterpreter.ExecuteOutputAscii | befunge.py:268-285 | pops v and outputs the character with that code, or raises OverflowError, as Semantics.Execute |
| Interpreting.BefungeInterpreter.ExecuteChoice | befunge.py:300-317 | `_` and `\|` pop v and aim right/down on 0, left/up otherwise, as Semantics.Execute |
| Interpreting.BefungeInterpreter.ExecuteSwap | befunge.py:329-340 | the first pop is unguarded and the second falls back to 0, as Semantics.Execute |
| Interpreting.BefungeInterpreter.ExecuteGet | befunge.py:372-382 | pops y and x and pushes the code at (x, y), or raises IndexError, as Semantics.Execute |
| Interpreting.BefungeInterpreter.ExecutePut | befunge.py:359-370 | pops y, x and v and stores chr(v) at (x, y) (the corrected `p`), as Semantics.Execute |
| Interpreting.BefungeInterpreter.Step | befunge.py:460-475 | one turn of the token loop leaves the state, or the halt or exception, that Semantics.Step gives |
| Interpreting.BefungeInterpreter.Interpret | befunge.py:455-476 | reading the text and looping returns what the bounded Semantics.Run gives from the loaded state, keeps the object valid, and leaves it in the state Semantics.Settle gives unless an exception was raised |
| Interpreting.Interpret | befunge.py:479-481 | a fresh interpreter's run of the text is Semantics.Interpretation |
| Properties.BinaryOperatorEffect | befunge.py:192-248 | with fewer than two values, IndexError; otherwise the two operands are replaced by operate(a, b) and nothing else changes, with each operator's result spelled out |
| Properties.DivideAndModuloOnStack | befunge.py:226-248 | on the stack, `/` and `%` give the floor quotient and remainder of b by a, and 0 for a zero divisor |
| Properties.NotEffect | befunge.py:251-265 | `!` raises IndexError exactly on an empty stack; otherwise it replaces the top with 1 if it was 0 and with 0 otherwise |
| Properties.DuplicateEffect | befunge.py:288-297 | `:` never raises: it pushes a copy of the top, or 0 on an empty stack, and changes nothing else |
| Properties.SwapEffect | befunge.py:329-340 | `\` raises exactly on an empty stack, turns [v] into [v, 0], and otherwise exchanges the top two |
| Properties.SwapTwice | befunge.py:329-340 | on two or more values, swapping twice restores the machine |
| Properties.DiscardEffect | befunge.py:343-348 | `$` removes the top, or raises IndexError exactly on an empty stack |
| Properties.OutputIntegerEffect | befunge.py:268-279 | `.` raises IndexError exactly on an empty stack; otherwise it pops v, appends the numeral of v and changes nothing else |
| Properties.OutputAsciiEffect | befunge.py:268-285 | `,` raises IndexError exactly on an empty stack and OverflowError when the top is not a code point; otherwise it pops v, appends the character with code v and changes nothing else |
| Properties.GetEffect | befunge.py:379-382 | `g` raises IndexError with fewer than two values and when (x, y) is not a cell; otherwise it pops y and x, pushes the code at (x, y) and changes nothing else |
| Properties.ExecuteKeepsCardinal | befunge.py:160-189 | no command leaves the direction off the four unit steps |
| Properties.StepKeepsCardinal | befunge.py:460-475 | no turn of the loop leaves the direction off the four unit steps |
| Properties.HorizontalChoice | befunge.py:300-307 | `_` raises IndexError exactly on an empty stack; otherwise it pops v, heads right exactly when v is 0 and left exactly otherwise, and changes nothing else |
| Properties.VerticalChoice | befunge.py:310-317 | `\|` raises IndexError exactly on an empty stack; otherwise it pops v, heads down exactly when v is 0 and up exactly otherwise, and changes nothing else |
| Properties.StepMovesOnce | befunge.py:108 | every continuing turn except `#` moves the cursor once, by the direction in force after the command |
| Properties.ExecuteKeepsCursor | befunge.py:351-356 | only `#` moves the cursor while executing, by one step with the direction unchanged |
| Properties.SkipMovesTwice | befunge.py:351-356 | `#` advances the cursor two cells and changes nothing else |
| Properties.EndOfProgramHalts | befunge.py:94-98 | reading outside the program yields the end token, and the run returns the output so far |
| Properties.EndCommandHalts | befunge.py:469-471 | `@` stops the run before executing or advancing, and the run returns the output so far |
| Properties.IllegalCharacterAborts | befunge.py:106-107 | a character that is neither a digit, nor a quote, nor a command aborts the run with SyntaxError |
| Properties.RunAfterSteps | befunge.py:460-476 | a run of n + k steps is n continuing turns followed by a run of k from where they lead |
| Properties.StringStep | befunge.py:83-85 | in string mode a quote only leaves string mode and any other character is pushed, and the cursor moves on |
| Properties.StringBody | befunge.py:76-87 | in string mode, with the characters s and a quote on the path ahead in any direction, the characters are pushed in order and the quote leaves string mode just past it |
| Properties.QuotedRun | befunge.py:101-103 | a quoted run of quote-free text on the path ahead, in any direction, pushes exactly its characters in order and steps past the closing quote |
| Properties.StringRunsOff | befunge.py:82-87 | in string mode, when the n cells ahead hold no quote and the path then leaves the program, the run raises SyntaxError, in any direction and through wrapped negative indices |
| Properties.UnterminatedString | befunge.py:82-87 | a quote followed by n quote-free cells, after which the path leaves the program, aborts the run with SyntaxError, in any direction |
| Properties.JoinedAppend | befunge.py:476 | the joined output is the pieces in emission order |
| Properties.StepAppendsOutput | befunge.py:268-285 | a turn appends the numeral for `.`, the character for `,`, and nothing otherwise; earlier output is never rewritten |
| Properties.ExecuteKeepsOutput | befunge.py:152-392 | every command other than `.` and `,` leaves the output as it was |
| Properties.PutOutcome | befunge.py:359-370 | the corrected `p` succeeds exactly when chr(v) is defined and (x, y) is a cell; otherwise it raises ValueError or IndexError. On success it consumes its three values, writes the cell and changes nothing else: direction, string mode, cursor and output are kept |
| Properties.PutUnderflow | befunge.py:367-369 | `p` with fewer than three values raises IndexError |
| Properties.PutThenGet | befunge.py:359-382 | `v x y p` followed by `x y g` pushes v back, and no other cell changed |
| AsWritten.PutAsWritten | befunge.py:367-370 | `p` as written always raises, and raises TypeError exactly when the pops, chr(v) and the row index all succeed |
| AsWritten.ChooseRandomAsWritten | befunge.py:325 | `?` as written always raises TypeError |
| AsWritten.ExecuteAsWritten | befunge.py:152-392 | all commands but `p` and `?` behave as in the corrected semantics |
| AsWritten.PutAsWrittenNeverStores | befunge.py:367-370 | whenever the corrected `p` stores, the written one raises TypeError instead |
| AsWritten.PutARaises | befunge.py:367-370 | the written `p` on the program " " with stack [65, 0, 0] raises TypeError |
| AsWritten.PutAStores | befunge.py:359-370 | the corrected `p` on the same state stores 'A' at (0, 0) and consumes the three values |
| AsWritten.GetAReads | befunge.py:372-382 | `g` at (0, 0) then pushes 65 |
| AsWritten.PutCounterexample | befunge.py:359-382 | on the program " " with stack [65, 0, 0], the written `p` raises TypeError, while the corrected one stores 'A' and `g` reads back 65 |
| AsWritten.ChooseRandomCounterexample | befunge.py:320-326 | the written `?` raises on every machine, while the corrected one always succeeds and can take each heading |
| Examples.Go | befunge.py:460-476 | a turn that continues hands the rest of the run to the next state |
| Examples.Stop | befunge.py:469-475 | a turn that halts ends the run with the joined output |
| Examples.CommandStep | befunge.py:466-473 | a command character outside string mode executes its command, then advances |
| Examples.DigitAt | befunge.py:99-100 | a digit cell pushes its value and moves on |
| Examples.BlankAt | befunge.py:152-157 | a space changes nothing but the position |
| Examples.HeadAt | befunge.py:160-189 | an arrow sets the heading the run moves on in |
| Examples.DuplicateAt | befunge.py:288-297 | `:` copies the top |
| Examples.SubtractAt | befunge.py:210-215 | `-` replaces b, a with b - a |
| Examples.MultiplyAt | befunge.py:218-223 | `*` replaces b, a with a * b |
| Examples.SwapAt | befunge.py:329-340 | `\` exchanges the top two |
| Examples.DiscardAt | befunge.py:343-348 | `$` drops the top |
| Examples.HorizontalAt | befunge.py:300-307 | `_` pops and turns right on 0, left otherwise |
| Examples.PrintAt | befunge.py:276-279 | `.` pops and appends the numeral |
| Examples.EndAt | befunge.py:385-392 | `@` ends the run with the joined output |
| Examples.OffGridAt | befunge.py:94-98 | leaving the grid ends the run with the joined output |
| Examples.HaltsAtOnce | befunge.py:479-481 | `interpret("@")` returns the empty string |
| Examples.DigitNumeral | befunge.py:276-279 | a single digit value prints as that one digit |
| Examples.PushAll | befunge.py:99-100 | a stretch of digit cells on a row, read rightward, pushes their values in order |
| Examples.PrintAll | befunge.py:268-279 | with digit values on the stack and as many dots before the row ends, the run prints the digits in reverse and stops |
| Examples.DigitsThenDots | befunge.py:486 | `interpret` of any digits s followed by \|s\| dots returns s reversed, within 2\|s\| + 1 steps and with any larger bound |
| Examples.DigitsPrintedInReverse | befunge.py:486 | `interpret("123...")` returns "321" within 7 steps and with any larger bound, as an instance of Examples.DigitsThenDots |
| Examples.FactorialLoads | befunge.py:491-492 | the factorial program loads as a grid of its two lines |
| Examples.Prologue | befunge.py:491 | `08>` pushes 0 and 8 and enters the count-down loop |
| Examples.Decrement | befunge.py:491 | `:1-` turns k into k, k-1 |
| Examples.CountDownTest | befunge.py:491-492 | `:v_` copies the top, goes down to row 1, and turns right on zero, left otherwise |
| Examples.CountDownTurn | befunge.py:491-492 | turned left, the path runs along row 1, up, and right into the loop again |
| Examples.CountDownExit | befunge.py:492 | a zero copy leaves the loop: `$` drops it and `>` enters the product loop |
| Examples.CountDown | befunge.py:491-492 | from k >= 1, the count-down loop leaves 0, k, k-1, ..., 1 and enters the product loop, in 12k - 4 steps |
| Examples.ProductTest | befunge.py:491-492 | `\:^_` brings up the next factor and turns on it |
| Examples.ProductTurn | befunge.py:491-492 | turning left, `*` multiplies and the path returns to the swap |
| Examples.ProductRound | befunge.py:491-492 | one pass of the product loop multiplies a non-zero factor into the product |
| Examples.ProductStep | befunge.py:491-492 | multiplying in factor j + 1 preserves the final product |
| Examples.ProductLoop | befunge.py:491-492 | the product loop multiplies the factors j+1..n into the running product |
| Examples.Epilogue | befunge.py:491 | with a zero under the product p, the run prints p and stops at `@` |
| Examples.FactorialRun | befunge.py:491-492 | on any grid laid out like the factorial program, the run from (0, 0) prints the product 2 * 3 * ... * 8 after 158 steps |
| Examples.EightFactorial | befunge.py:492 | that product is 40320 and prints as "40320" |
| Examples.FactorialOfEight | befunge.py:491-492 | the factorial program returns "40320" within 158 steps and with any larger bound |

## Left out

- Logging (lines 3, 93, 457-475) has no effect on results and is not modelled.
- Token classes and their `__str__`/`__repr__` (lines 9-41) are represented by the `Token` datatype; the printing is not modelled.
- `str.isdigit` (line 99) also accepts non-ASCII digits, which `int` then converts or rejects. The model treats only `0`-`9` as digits; any other digit is an illegal character.
- The generators are modelled as one classification per turn (`Lexer.Scan`) plus a string-mode flag. The interleaving of the generator with the loop is not modelled beyond that.
- The command registry (`get_subclasses` and `Command.dict`, lines 128-149) is written out as a literal table, `Commands.Lookup`. The lexer's `command_lexemes` (line 55) is that table's key set.
- The interpreter's `Parser` object is folded into `Commands.GetCommand`.
- Commands are executed by an interpreter method per command class rather than by separate command objects.
- A run is bounded by a step count. A program that does not terminate is seen as `OutOfFuel`, never as an infinite loop.
- Randomness is a parameter: `?` receives a draw. The distribution of `random.choice` is not modelled.
- The `__main__` block and its test framework (lines 483-492) are not modelled. Their programs are modelled as lemmas in `Examples`.
- PyOps.FormatInt: never fails. CPython 3.11 and later raise ValueError when `"{:d}".format` would produce more than 4300 digits (the `int` string-conversion limit); the model prints any integer, as earlier Python versions do.
- PyOps.Chr: does not distinguish the OverflowError that `chr` raises for values beyond the C integer range from the ValueError it raises for other values outside the code-point range.
- Interpreting.BefungeInterpreter.Pop2: does not state the stack after a failed pop2, because the exception ends the run.

## Findings

| source | as written | input that shows it | evidently intended | confidence | as-written member | corrected member |
|---|---|---|---|---|---|---|
| befunge.py:370 | `p` assigns into a row of `str.split`, and a `str` does not support item assignment, so every `p` whose pops, `chr` and row index succeed raises TypeError | program " " with stack [65, 0, 0] reaching `p` | store chr(v) at (x, y) so that a later `g` reads it back, as the docstring says | high, not executed | AsWritten.PutCounterexample | Properties.PutThenGet |
| befunge.py:325 | `random.choice` takes one sequence but is called with four arguments, so `?` raises TypeError | any program reaching `?`, for example "?" | move in one of the four directions chosen at random | high, not executed | AsWritten.ChooseRandomCounterexample | Commands.EveryHeadingReachable |
