# MyInterpreter core, modelled in Dafny

MyInterpreter is a small tree-walking interpreter for a Lox-like scripting
language, written in Rust. This project models its execution core and proves
properties of the model. The core has four parts:

- **the scanner** (`src/scanner.rs`): turns source text into tokens in one
  left-to-right pass, keeping a line counter;
- **the parser** (`src/parser.rs`): a recursive-descent parser with a
  cursor over the token vector;
- **the scope chain** (`src/environment.rs`): nested maps from names to
  values, with `define`, `get` and `assign`;
- **the evaluator** (`src/interpreter.rs`): walks expressions and
  statements over the scope chain.

Each part has two layers. The first is a pure specification: the functions
`Scan`/`ScanFrom`, `ParseFrom` and the `Parse*` functions, `Lookup`,
`DefineIn` and `AssignIn`, and `Eval`/`Exec`. The second is the imperative
code, kept in the shape the source has:

- `Scanner.Scanner` is the scanning loop with its inner loops.
- `Parser.Parser` is a class with the token vector and a `current` cursor;
  its descent routines move the cursor.
- `Environment.Environment` holds the chain and updates it in place.
- `Interpreter.Interpreter` owns an `Environment` and the console output.

Every method is proved to return what its specification function says and
leave the state it says. Properties of the specification functions are then
proved as lemmas in the `*_properties.dfy` files:

- the scanner's output ends with exactly one EOF token, every other token is
  well formed, and line numbers never decrease;
- parsing round-trips with a token spelling of trees that respect
  precedence, and of programs made of `print e;` and `e;` statements; every
  tree the parser returns respects precedence and associativity;
- `get`, `define` and `assign` read and write only the binding they name;
- on two numbers `+ - * / %` give the sum, difference, product, quotient
  and truncated remainder and the comparisons give their outcome; the
  operators reject other operands with the source's errors;
- `or`/`and` short-circuit, postfix `++`/`--` rebind a number one up or
  down, and a block drops the names it defined; a block that assigns
  nothing gives back exactly the chain it started from;
- the iteration bound of `while` only ever cuts a run short.

Files:

| file | module |
|---|---|
| `wrappers.dfy` | `Wrappers`: `Option`, `Result` |
| `tokens.dfy` | `Tokens`: token kinds, atomic values, runtime values, tokens |
| `scanner.dfy`, `scanner_properties.dfy` | `Scanner`, `ScannerProperties` |
| `ast.dfy` | `Ast`: expressions and statements |
| `parser.dfy`, `parser_properties.dfy` | `Parser`, `ParserProperties` |
| `environment.dfy`, `environment_properties.dfy` | `Environment`, `EnvironmentProperties` |
| `interpreter.dfy`, `interpreter_properties.dfy` | `Interpreter`, `InterpreterProperties` |
| `scope_properties.dfy` | `ScopeProperties`: what a block keeps |
| `fuel_properties.dfy` | `FuelProperties`: more fuel never changes a finished run |

Modelling choices:

- **Scope chain.**
  - The source links each scope to the one enclosing it. The model lays the
    chain out as a sequence of maps, with the global scope first and the
    current scope last.
  - Entering a block pushes an empty map. Leaving it pops the map, which is
    what `replace`/`take` do in `evaluate_blocks`.
- **Numbers and panics.**
  - `f32` numbers are Dafny `real`s.
  - Every `panic!` of the source is a `Failure` carrying a `ParseError` or
    `RuntimeError` that names the panic.
- **Host-dependent behaviour.** What the evaluator cannot see is a field of a
  `Host` value:
  - the text of a number (`f32::to_string`);
  - what a callable returns;
  - the float remainder by zero (NaN).
- **Console output.** It is a list of `Output` lines: `ExprDone` for the
  fixed line an expression statement prints, and `Printed(v)` for `print`.
- **`while` and fuel.**
  - A `while` loop may run for ever, so `Exec` and the statement methods
    take a `fuel` bound.
  - Each iteration of a `while` spends one unit. A loop that needs more
    fails with `OutOfFuel`.
  - The fuel is tested before the condition, so a loop whose body runs N
    times needs N + 1 units: the last unit pays for the test that ends it.
  - `FuelProperties.MoreFuelSameRun` proves that any run that did not
    fail this way ends the same way with any larger bound.
- **One syntax tree.** The evaluator's tree has logical operators, postfix
  `++`/`--`, calls, `if` and `while`. The parser's tree does not. The
  project uses the evaluator's tree, `Ast`, for both; the parser builds
  only the variants its source builds.

Behaviour of the source worth knowing, which the model reproduces:

- `"x" + 1` evaluates to the number's text followed by the string (`"1x"`),
  the same as `1 + "x"` (see `InterpreterProperties.PlusCases`).
- A `;` also advances the scanner's line counter.
- An unterminated string literal is emitted as a string token rather than
  reported.
- The scanner drops a lone `&` or `|`. It also drops `=`, `!`, `<` or `>` at
  the very end of the input or before a `'\0'`.
- The keyword table contains `and` and `or`, but `_match_keyword` has no case
  for them, so they scan as identifiers.
- The parser stops at its first error; it does not synchronise.
- A binary operator that no arm of `evaluate_binary` handles yields `nil`
  rather than an error (see `Interpreter.ApplyBinary`).

## Model

| member | source | states |
|---|---|---|
| Scanner.IsDigit | src/scanner.rs:38-43 | `_is_number`: the ten ASCII digits `0` to `9`, nothing else |
| Scanner.IsAlphanumeric | src/scanner.rs:45-50 | `_is_alphanumeric`: the ASCII letters of both cases, the ASCII digits and `_`, nothing else |
| Scanner.IsKeyword | src/scanner.rs:9-16 | true exactly when the word is one of the sixteen entries of the keyword table |
| Scanner.MatchKeyword | src/scanner.rs:18-36 | a word gets a kind other than IDENTIFIER exactly when it is in the keyword table and is neither `and` nor `or`; `true` and `false` are the only words of kind TRUE and FALSE |
| Scanner.DigitsEnd | src/scanner.rs:399-408 | the end of the maximal run of digits starting at the given position: every character before it is a digit, the one at it is not |
| Scanner.WordEnd | src/scanner.rs:429-438 | the end of the maximal run of letters, digits and `_` starting at the given position |
| Scanner.NextOf | src/scanner.rs:376-387 | the first occurrence of the character at or after the position, or the end of the input when there is none |
| Scanner.Step | src/scanner.rs:63-491 | one turn of the scanning loop either stops (at `'\0'`) or moves strictly forward and never moves the line counter back |
| Scanner.ScanFrom | src/scanner.rs:52-502 | the tokens the scanning loop produces from a position and line counter on: each turn's tokens as `Step` gives them, until the end of the input or a `'\0'`, then one EOF token on the current line; the `ScannerProperties` lemmas state its shape |
| Scanner.Scan | src/scanner.rs:52-502 | `ScanFrom` from the first character with the line counter at 1, the specification `Scanner.Scanner` is proved to meet; `ScanEndsWithOneEof`, `ScanTokensWellFormed` and `ScanLines` are about it |
| Scanner.OperatorTurn | src/scanner.rs:195-352 | `=`, `!`, `>`, `<`, `&` and the bar consume one or two characters and never move the line counter |
| Scanner.SlashTurn | src/scanner.rs:353-374 | `/` or a `//` comment moves forward and raises the line counter by at most one |
| Scanner.StringTurn | src/scanner.rs:375-398 | a string literal moves forward and never moves the line counter back |
| Scanner.NumberTurn | src/scanner.rs:399-427 | a number moves forward on the same line |
| Scanner.WordTurn | src/scanner.rs:429-486 | an identifier or keyword moves forward on the same line |
| Scanner.Scanner | src/scanner.rs:52-502 | the scanning loop returns exactly `Scan(input)`, the tokens the specification assigns to the text |
| Scanner.ScanStep | src/scanner.rs:64-492 | the body of the scanning loop stops exactly when `Step` stops, and otherwise emits the tokens, position and line `Step` gives |
| Scanner.ScanOperator | src/scanner.rs:195-352 | the operator arms emit exactly what `OperatorTurn` specifies |
| Scanner.ScanSlash | src/scanner.rs:353-374 | the comment loop skips through the next newline, as `SlashTurn` specifies |
| Scanner.ScanString | src/scanner.rs:375-398 | the string loop collects the text up to the next quote and counts its newlines, as `StringTurn` specifies |
| Scanner.ScanNumber | src/scanner.rs:399-427 | the digit loop reads the maximal digit run with its decimal value, as `NumberTurn` specifies |
| Scanner.ScanWord | src/scanner.rs:429-486 | the identifier loop reads the maximal run and classifies it against the keyword table, as `WordTurn` specifies |
| ScannerProperties.WordTokenWellFormed | src/scanner.rs:439-485 | a word is a well-formed token: a keyword token carries the kind of its keyword and a Bool literal only for `true`/`false`; any other word is an IDENTIFIER |
| ScannerProperties.SingleCharWellFormed | src/scanner.rs:75-192 | a punctuation character is a well-formed token of its kind, with its own text and no literal |
| ScannerProperties.OperatorTurnTokens | src/scanner.rs:195-352 | the operator arms emit at most one well-formed token, on the current line |
| ScannerProperties.SlashTurnTokens | src/scanner.rs:353-374 | `/` emits a well-formed SLASH token; a comment emits nothing; the line grows by at most the newlines consumed |
| ScannerProperties.StringTurnTokens | src/scanner.rs:375-398 | a string literal is one well-formed STRING token whose literal is its text, on a line no later than the newlines consumed allow |
| ScannerProperties.StringLineBound | src/scanner.rs:383-385 | the newlines inside a string raise the line counter by no more than the bumps consumed |
| ScannerProperties.NumberTurnTokens | src/scanner.rs:399-427 | a number is one well-formed NUMBER token on the current line: digits only, with their decimal value as literal |
| ScannerProperties.WordTurnTokens | src/scanner.rs:429-486 | a word starting with a letter or `_` is one well-formed token on the current line |
| ScannerProperties.StepTokens | src/scanner.rs:63-492 | every turn of the loop emits at most one well-formed token, on a line between the counter before and after the turn, and the counter grows by at most the newlines and semicolons consumed |
| ScannerProperties.ScanFromShape | src/scanner.rs:63-501 | the tokens from any position end with a bare EOF token, every token before it is well formed and none of them is EOF |
| ScannerProperties.ScanEndsWithOneEof | src/scanner.rs:495-501 | the scanner's result ends with an EOF token and contains no other |
| ScannerProperties.ScanTokensWellFormed | src/scanner.rs:52-502 | every token before EOF is well formed for its kind |
| ScannerProperties.ScanNeverIncrements | src/scanner.rs:52-502 | the scanner never produces `++`, `--` or VAR tokens |
| ScannerProperties.ScannedKind | src/scanner.rs:52-502 | no token of the result, EOF included, has kind `++`, `--` or VAR |
| ScannerProperties.WellFormedKind | src/scanner.rs:75-486 | no well-formed token is EOF, VAR, `++` or `--` |
| ScannerProperties.ScanFromLines | src/scanner.rs:63-501 | from any position, token lines start at the current counter, never decrease, and grow by at most the newlines and semicolons in the rest of the input |
| ScannerProperties.ScanLines | src/scanner.rs:54-501 | the lines of the scanner's tokens start at 1, never decrease, and stay within 1 plus the newlines and semicolons of the text |
| ScannerProperties.IgnoredStep | src/scanner.rs:488-491 | a character with no arm of its own is skipped: no token, same line |
| ScannerProperties.NewlineStep | src/scanner.rs:69-71 | a newline emits nothing and advances the line counter |
| ScannerProperties.NulStops | src/scanner.rs:72-74 | `'\0'` ends the scan: only the EOF token follows |
| ScannerProperties.SingleCharStep | src/scanner.rs:75-192 | a punctuation character emits its token; `;` also advances the line counter |
| ScannerProperties.TwoCharStep | src/scanner.rs:195-352 | `==`, `!=`, `>=`, `<=` emit one two-character token |
| ScannerProperties.OneCharStep | src/scanner.rs:211-221 | `=`, `!`, `>`, `<` not followed by `=` or `'\0'` emit a one-character token |
| ScannerProperties.DanglingOperatorStep | src/scanner.rs:196-198 | `=`, `!`, `>`, `<` at the end of the input or before `'\0'` emit nothing |
| ScannerProperties.DoubledStep | src/scanner.rs:225-262 | `&&` and a doubled bar emit AND and OR |
| ScannerProperties.LoneAmpersandOrBarStep | src/scanner.rs:225-262 | a `&` or a bar that is not doubled is dropped |
| ScannerProperties.SlashStep | src/scanner.rs:362-373 | `/` not followed by `/` emits SLASH |
| ScannerProperties.CommentStep | src/scanner.rs:354-361 | a `//` comment is skipped through its newline, advancing the line counter; without a newline it ends the scan |
| ScannerProperties.StringStep | src/scanner.rs:375-398 | a string emits one STRING token with the text up to the next quote, on the line after its newlines, and scanning resumes after the closing quote |
| ScannerProperties.NumberStep | src/scanner.rs:399-427 | a digit run emits one NUMBER token with its decimal value |
| ScannerProperties.WordStep | src/scanner.rs:429-486 | a word emits one token for the whole maximal run |
| Parser.Check | src/parser.rs:64-66 | `check_token` on a token vector: false at EOF, otherwise whether the current token has the kind |
| Parser.CheckAny | src/parser.rs:54-62 | the test `match_token` makes: the current token is not EOF and has one of the kinds |
| Parser.Advanced | src/parser.rs:68-73 | `advance` moves one token on, and stays put on EOF |
| Parser.ParseExpression | src/parser.rs:159-161 | an expression that parses consumes at least one token and stops on a token of the vector |
| Parser.ParseAssignment | src/parser.rs:163-179 | a successful assignment-level parse consumes at least one token |
| Parser.ParseBinary | src/parser.rs:181-244 | a successful binary-level parse consumes at least one token |
| Parser.BinaryTail | src/parser.rs:184-192 | the operator loop of a level never moves the cursor back |
| Parser.ParseUnary | src/parser.rs:246-256 | a successful unary parse consumes at least one token |
| Parser.LiteralAt | src/parser.rs:260-269 | the literal branches apply exactly when the token is `false`, `true`, `nil`, a number or a string, and then consume exactly that token |
| Parser.ParsePrimary | src/parser.rs:258-282 | a successful primary consumes at least one token |
| Parser.ConsumeAt | src/parser.rs:87-93 | `consume` succeeds exactly when the current token has the expected kind (and is not EOF), returning that token one step on; otherwise it is an error at the current token with the given message |
| Parser.ParseDeclaration | src/parser.rs:110-115 | a successful declaration consumes at least one token |
| Parser.ParseVarDeclaration | src/parser.rs:117-125 | a successful `let` consumes at least one token |
| Parser.ParseStatement | src/parser.rs:127-135 | a successful statement consumes at least one token |
| Parser.ParseBlock | src/parser.rs:137-145 | a successful block consumes at least its closing brace |
| Parser.BlockItems | src/parser.rs:140-142 | the block loop never moves the cursor back |
| Parser.ParsePrintStatement | src/parser.rs:147-151 | a successful `print` statement consumes at least one token |
| Parser.ParseExpressionStatement | src/parser.rs:153-157 | a successful expression statement consumes at least one token |
| Parser.ParseFrom | src/parser.rs:101-108 | the program loop, when it succeeds, stops exactly at the EOF token |
| Parser.Parse | src/parser.rs:101-108 | `parse` is `ParseFrom` from the first token: a program that always ends at EOF (the ensures of `ParseFrom`), or its first error. `ParserProperties.ParseProgramRoundTrip` reads a program back from its spelling. The error lemmas `PrintNeedsSemicolon`, `ExpressionStatementNeedsSemicolon`, `LetNeedsName` and `UnclosedBlock`, and `LetWithoutInitializer`, state what one declaration yields |
| Parser.Parser.constructor | src/parser.rs:46-51 | a new parser holds the tokens with the cursor at 0 |
| Parser.Parser.Peek | src/parser.rs:79-81 | the token under the cursor |
| Parser.Parser.IsAtEnd | src/parser.rs:75-77 | `is_at_end`: the token under the cursor is EOF |
| Parser.Parser.CheckToken | src/parser.rs:64-66 | `check_token`: false at EOF, otherwise whether the token under the cursor has the kind; it is `Check` at the cursor |
| Parser.Parser.Previous | src/parser.rs:83-85 | the token before the cursor |
| Parser.Parser.Advance | src/parser.rs:68-73 | the cursor moves as `Advanced` says, and the token returned is the one before the new cursor |
| Parser.Parser.MatchToken | src/parser.rs:54-62 | true exactly when the current token is not EOF and has one of the kinds; only then the cursor moves one step |
| Parser.Parser.Consume | src/parser.rs:87-93 | agrees with `ConsumeAt`: result and new cursor |
| Parser.Parser.ParseProgram | src/parser.rs:101-108 | returns the statements `ParseFrom` gives from the cursor, or its error |
| Parser.Parser.Declaration | src/parser.rs:110-115 | agrees with `ParseDeclaration` on result and cursor |
| Parser.Parser.VarDeclaration | src/parser.rs:117-125 | agrees with `ParseVarDeclaration` on result and cursor |
| Parser.Parser.Statement | src/parser.rs:127-135 | agrees with `ParseStatement` on result and cursor |
| Parser.Parser.BlockStatement | src/parser.rs:137-145 | agrees with `ParseBlock` on result and cursor |
| Parser.Parser.PrintStatement | src/parser.rs:147-151 | agrees with `ParsePrintStatement` on result and cursor |
| Parser.Parser.ExpressionStatement | src/parser.rs:153-157 | agrees with `ParseExpressionStatement` on result and cursor |
| Parser.Parser.Expression | src/parser.rs:159-161 | agrees with `ParseExpression` on result and cursor |
| Parser.Parser.Assignment | src/parser.rs:163-179 | agrees with `ParseAssignment` on result and cursor |
| Parser.Parser.Equality | src/parser.rs:181-194 | agrees with `ParseBinary` at the equality level |
| Parser.Parser.Comparison | src/parser.rs:196-214 | agrees with `ParseBinary` at the comparison level |
| Parser.Parser.Term | src/parser.rs:216-229 | agrees with `ParseBinary` at the term level |
| Parser.Parser.Factor | src/parser.rs:231-244 | agrees with `ParseBinary` at the factor level |
| Parser.Parser.LevelTurn | src/parser.rs:184-191 | one turn of a binary level's `while match_token` loop: it either ends the loop with the result `BinaryTail` gives for the tokens from the cursor, or consumes an operator and its operand and hands on a tree from which `BinaryTail` gives the same result |
| Parser.Parser.Unary | src/parser.rs:246-256 | agrees with `ParseUnary` on result and cursor |
| Parser.Parser.LiteralPrimary | src/parser.rs:260-269 | answers exactly when `LiteralAt` does, with its result; otherwise the cursor stays put |
| Parser.Parser.Primary | src/parser.rs:258-282 | agrees with `ParsePrimary` on result and cursor |
| ParserProperties.OpsByLevel | src/parser.rs:181-244 | each binary operator belongs to exactly one of the four precedence levels |
| ParserProperties.LiteralRoundTrip | src/parser.rs:260-269 | a literal's token parses back to the literal |
| ParserProperties.VariableRoundTrip | src/parser.rs:274-276 | an identifier parses back to the variable holding that very token |
| ParserProperties.GroupingRoundTrip | src/parser.rs:270-273 | `(` e `)` parses back to the grouping of e |
| ParserProperties.PrimaryRoundTrip | src/parser.rs:258-282 | every primary tree parses back from its spelling, consuming exactly that spelling |
| ParserProperties.UnaryRoundTrip | src/parser.rs:246-256 | every unary-level tree parses back from its spelling |
| ParserProperties.OperandRoundTrip | src/parser.rs:181-256 | the operand of each level parses back from its spelling when the next token does not continue that level |
| ParserProperties.ChainRoundTrip | src/parser.rs:181-244 | parsing a level-k chain leaves the operator loop of level k holding exactly that chain |
| ParserProperties.LevelRoundTrip | src/parser.rs:181-244 | a tree of binary level k followed by a token that continues no level up to k parses back whole |
| ParserProperties.ExpressionRoundTrip | src/parser.rs:159-179 | an expression tree that respects precedence, followed by a token that continues no expression, parses back to itself with the cursor right after its spelling |
| ParserProperties.ParseUnparse | src/parser.rs:159-179 | parsing the spelling of a tree followed by EOF gives back the tree |
| ParserProperties.RoundTripOn | src/parser.rs:159-179 | the same on any token vector whose tokens have the spelling's kinds and literals |
| ParserProperties.PrimarySound | src/parser.rs:258-282 | every primary the parser returns is a literal, a variable or a grouping of a well-formed expression |
| ParserProperties.UnarySound | src/parser.rs:246-256 | every unary-level tree the parser returns respects precedence |
| ParserProperties.OperandSound | src/parser.rs:181-256 | every operand parsed at level k is a tree of level k or below |
| ParserProperties.TailSound | src/parser.rs:184-192 | the operator loop of level k keeps its tree left-associative at level k |
| ParserProperties.BinarySound | src/parser.rs:181-244 | every binary-level tree the parser returns respects precedence and left associativity |
| ParserProperties.ExpressionSound | src/parser.rs:163-179 | every expression the parser returns respects precedence, and assignments target bare variables |
| ParserProperties.ParsableUp | src/parser.rs:181-256 | a tree that fits a precedence level fits every looser one |
| ParserProperties.MinusIsLeftAssociative | src/parser.rs:216-229 | `a - b - c` parses as `(a - b) - c` |
| ParserProperties.StarBindsTighterThanPlus | src/parser.rs:216-244 | `a + b * c` parses as `a + (b * c)` |
| ParserProperties.ComparisonBetweenTermAndEquality | src/parser.rs:181-229 | `a == b < c + d` parses as `a == (b < (c + d))` |
| ParserProperties.AssignmentIsRightAssociative | src/parser.rs:163-179 | `a = b = c` parses as `a = (b = c)` |
| ParserProperties.UnaryNests | src/parser.rs:246-256 | `- - x` parses as `-(-x)` |
| ParserProperties.AssignmentToNonVariable | src/parser.rs:170-176 | `a + b = c` is the `Wrong assignment` error |
| ParserProperties.PrintRoundTrip | src/parser.rs:147-151 | `print e;` followed by any token is read back by `declaration` as that print statement, ending after the `;` |
| ParserProperties.ExpressionStatementRoundTrip | src/parser.rs:153-157 | the same for `e;` as an expression statement |
| ParserProperties.StatementRoundTrip | src/parser.rs:110-135 | `declaration` reads back a `print e;` or `e;` statement from its spelling, ending right after it |
| ParserProperties.ParseFromDeclarations | src/parser.rs:101-108 | when `declaration` reads statements one after another and EOF follows, the loop of `parse` returns exactly those statements and stops at that EOF |
| ParserProperties.ProgramDeclarations | src/parser.rs:110-115 | the spelling of a program of `print e;` and `e;` statements is read by `declaration` one statement at a time |
| ParserProperties.ProgramFromRoundTrip | src/parser.rs:101-108 | the loop of `parse` reads a program's spelling back, up to the EOF after it |
| ParserProperties.ParseProgramRoundTrip | src/parser.rs:101-108 | `parse` of the spelling of a program of `print e;` and `e;` statements, then EOF, gives back that program |
| ParserProperties.LetWithoutInitializer | src/parser.rs:117-125 | `let x;` declares `x` with the initializer `nil` |
| ParserProperties.PrintNeedsSemicolon | src/parser.rs:147-151 | a `print` whose expression is not followed by `;` fails at the token after the expression, with the source's message |
| ParserProperties.ExpressionStatementNeedsSemicolon | src/parser.rs:153-157 | the same for an expression statement |
| ParserProperties.LetNeedsName | src/parser.rs:117-118 | `let` not followed by an identifier fails at that token |
| ParserProperties.UnclosedBlock | src/parser.rs:137-145 | a block that reaches EOF before `}` fails at EOF |
| ParserProperties.UnclosedGrouping | src/parser.rs:270-273 | `(` e without `)` fails at the token after e |
| ParserProperties.NoOperand | src/parser.rs:181-282 | a token that starts no primary or unary expression is the `Expect expression.` error at every binary level |
| ParserProperties.NoPrimary | src/parser.rs:277-280 | the same for a whole expression |
| Environment.Lookup | src/environment.rs:23-35 | `get` fails exactly when the name is bound in no scope, with the not-found error; otherwise it returns the binding of the nearest scope that binds it |
| Environment.DefineIn | src/environment.rs:19-21 | `define` binds the name in the current scope, leaves every enclosing scope as it was, and `get` then returns the new value |
| Environment.AssignIn | src/environment.rs:37-49 | `assign` fails exactly when the name is bound nowhere; otherwise it overwrites the nearest binding and leaves every other scope as it was |
| Environment.Environment.constructor | src/environment.rs:12-17 | a new chain has one empty scope |
| Environment.Environment.Enclose | src/environment.rs:12-17 | `new(Some(previous))` adds an empty innermost scope |
| Environment.Environment.Release | src/interpreter.rs:28-29 | taking the enclosing environment back drops the innermost scope |
| Environment.Environment.Define | src/environment.rs:19-21 | the chain becomes `DefineIn` of the old chain |
| Environment.Environment.Assign | src/environment.rs:37-49 | succeeds exactly when `AssignIn` does, leaving its chain; otherwise leaves the chain unchanged with the not-defined error |
| Environment.Environment.AssignFrom | src/environment.rs:37-49 | the recursion outward through the enclosing scopes agrees with `AssignIn` |
| EnvironmentProperties.Nearest | src/environment.rs:23-35 | for a bound name, the scope whose binding `get` finds |
| EnvironmentProperties.GetFindsNearest | src/environment.rs:23-35 | `get` of a bound name returns the nearest scope's value |
| EnvironmentProperties.GetReadsOnlyItsName | src/environment.rs:23-35 | two chains that bind a name alike give the same `get` for it, whatever else they bind |
| EnvironmentProperties.DefineKeepsOtherNames | src/environment.rs:19-21 | after `define`, `get` of every other name is unchanged |
| EnvironmentProperties.DefineAddsOneName | src/environment.rs:19-21 | `define` adds only its name, and only to the current scope |
| EnvironmentProperties.GetAfterAssign | src/environment.rs:37-49 | `get` after a successful `assign` returns the value assigned |
| EnvironmentProperties.AssignKeepsOtherNames | src/environment.rs:37-49 | after `assign`, `get` of every other name is unchanged |
| EnvironmentProperties.AssignKeepsNames | src/environment.rs:37-49 | `assign` never creates or removes a binding in any scope |
| EnvironmentProperties.AssignChangesOneScope | src/environment.rs:37-49 | `assign` changes exactly the binding in the nearest scope that holds the name |
| Interpreter.Truthy | src/interpreter.rs:222-228 | `is_truthy`: `nil` and `false` are falsy, every other value truthy; `InterpreterProperties.FalsyValues` states it |
| Interpreter.IsEqual | src/interpreter.rs:230-235 | succeeds exactly on two atomic values, and is then their equality; comparing a callable is an error |
| Interpreter.Trunc | src/interpreter.rs:161-166 | rounds toward zero: never past zero and by less than one |
| Interpreter.Rem | src/interpreter.rs:161-166 | the number `%`: the dividend less the divisor times the truncated quotient, and the host's result for a zero divisor; `InterpreterProperties.RemainderBounds` states its bounds and sign |
| Interpreter.Arithmetic | src/interpreter.rs:161-189 | anything but two numbers is the `Operands must be numbers.` error; on two numbers only `/` by zero fails, with the division-by-zero error; otherwise `-` gives the difference, `*` the product, `%` the truncated remainder `Rem`, and `/` the quotient |
| Interpreter.Comparison | src/interpreter.rs:190-213 | `> >= < <=` succeed exactly on two numbers, and then give a Bool that is true exactly when the comparison holds; anything else is the `Operands must be numbers.` error |
| Interpreter.Plus | src/interpreter.rs:145-159 | `+` gives a number or a string, or the `two numbers or two strings` error |
| Interpreter.ApplyBinary | src/interpreter.rs:144-217 | comparisons and `==`/`!=` give Bools when they succeed; an operator none of the arms handles yields `nil` rather than an error; the value of each operator on two numbers is in `InterpreterProperties.ArithmeticOperators` and `InterpreterProperties.ComparisonOperators` |
| Interpreter.ApplyUnary | src/interpreter.rs:110-124 | `!` gives the value's falsity; `-` negates exactly the numbers and rejects everything else; other operators are unreachable errors |
| Interpreter.Eval | src/interpreter.rs:55-220 | evaluation never creates or removes a binding in any scope |
| Interpreter.EvalPostfix | src/interpreter.rs:85-108 | postfix never creates or removes a binding |
| Interpreter.PostfixUnfolds | src/interpreter.rs:91-101 | on a variable bound to a number, postfix is the `assign` of the number plus or minus one, yielding the old value |
| Interpreter.RebindBound | src/interpreter.rs:92-99 | `assign` of a name `get` finds always succeeds |
| Interpreter.Rebind | src/interpreter.rs:63-67 | a successful assignment yields the given value and keeps every scope's names |
| Interpreter.EvalArgs | src/interpreter.rs:69-74 | the argument list yields one value per argument and keeps every scope's names |
| Interpreter.Exec | src/interpreter.rs:237-260 | a statement keeps the number of scopes and the names of every enclosing scope |
| Interpreter.ExecBlock | src/interpreter.rs:22-30 | push a scope, run the block, pop it: after the block the enclosing scopes keep their names, which `InterpreterProperties.BlockDiscardsItsNames` states exactly; `ScopeProperties.BlockKeepsChain` gives the values too when the block assigns nothing |
| Interpreter.ExecIf | src/interpreter.rs:32-41 | `if` keeps the number of scopes and the names of every enclosing scope |
| Interpreter.ExecWhile | src/interpreter.rs:43-53 | `while` keeps the number of scopes and the names of every enclosing scope |
| Interpreter.WhileOutOfFuel | src/interpreter.rs:43-53 | with no fuel left the loop fails with `OutOfFuel` |
| Interpreter.WhileEnds | src/interpreter.rs:47-50 | a condition that fails or is falsy ends the loop with the condition's error or the chain it left |
| Interpreter.WhileTurn | src/interpreter.rs:47-52 | a truthy condition runs the body and then the loop again with one unit of fuel less |
| Interpreter.ExecSeq | src/interpreter.rs:261-265 | statements in order keep the number of scopes and the names of every enclosing scope |
| Interpreter.EvalArgsStopsAtFailure | src/interpreter.rs:72-74 | the first failing argument is the failure of the whole list |
| Interpreter.Interpreter.constructor | src/interpreter.rs:16-20 | a new interpreter has one empty global scope and has printed nothing |
| Interpreter.Interpreter.Evaluate | src/interpreter.rs:55-220 | returns the value `Eval` gives and leaves its chain, or returns its error |
| Interpreter.Interpreter.EvaluateCall | src/interpreter.rs:69-84 | the callee and each argument in order, then the call, as `Eval` gives them |
| Interpreter.Interpreter.EvaluatePostfix | src/interpreter.rs:85-108 | agrees with `EvalPostfix` on value, chain and error |
| Interpreter.Interpreter.StepVariable | src/interpreter.rs:91-101 | the assignment of one up or one down agrees with `EvalPostfix` |
| Interpreter.Interpreter.EvaluateStatement | src/interpreter.rs:237-260 | leaves the chain and console `Exec` gives, or returns its error |
| Interpreter.Interpreter.EvaluateBlocks | src/interpreter.rs:22-30 | agrees with `ExecBlock`, and restores the number of scopes on every path |
| Interpreter.Interpreter.EvaluateIf | src/interpreter.rs:32-41 | agrees with `ExecIf` |
| Interpreter.Interpreter.EvaluateWhile | src/interpreter.rs:43-53 | the loop agrees with `ExecWhile` on the same fuel |
| Interpreter.Interpreter.WhileStep | src/interpreter.rs:47-52 | one turn of the loop either ends it with the result of `ExecWhile` or leaves a state where `ExecWhile` with less fuel gives the same result |
| Interpreter.Interpreter.WhileIteration | src/interpreter.rs:47-52 | the same for a turn with fuel left, spending exactly one unit |
| Interpreter.Interpreter.WhileBody | src/interpreter.rs:51 | the body after a truthy condition, as `ExecWhile` specifies it |
| Interpreter.Interpreter.Interpret | src/interpreter.rs:261-265 | runs the statements in order as `ExecSeq` gives them, stopping at the first error |
| InterpreterProperties.FalsyValues | src/interpreter.rs:222-228 | exactly `nil` and `false` are falsy |
| InterpreterProperties.ShortCircuit | src/interpreter.rs:126-136 | `or` with a truthy left operand and `and` with a falsy one yield the left operand and do not evaluate the right |
| InterpreterProperties.LogicalOtherwiseRight | src/interpreter.rs:126-137 | otherwise a logical expression is its right operand, evaluated on the chain the left one left |
| InterpreterProperties.AssignmentYieldsItsValue | src/interpreter.rs:63-67 | an assignment yields the value it assigns; afterwards `get` of the name returns it and every other name reads as before |
| InterpreterProperties.AssignmentToUnboundFails | src/interpreter.rs:63-67 | assigning a name bound nowhere is the not-defined error |
| InterpreterProperties.PostfixSteps | src/interpreter.rs:91-101 | `x++`/`x--` on a number yield the old number and rebind `x` one up or down |
| InterpreterProperties.PostfixOutcome | src/interpreter.rs:91-101 | on a number, the update succeeds and postfix yields the old number on the chain `assign` leaves |
| InterpreterProperties.PostfixRejects | src/interpreter.rs:86-106 | postfix on anything but a bound numeric variable is an error; on a non-variable it is the invalid-target error |
| InterpreterProperties.BlockDiscardsItsNames | src/interpreter.rs:22-30 | after a block every scope binds exactly the names it bound before |
| InterpreterProperties.LetBindsItsValue | src/interpreter.rs:247-255 | `let` binds its name to the initializer's value, `nil` without one |
| InterpreterProperties.PrintAppends | src/interpreter.rs:243-246 | `print` appends the printed value to the console and keeps the earlier lines |
| InterpreterProperties.PlusCases | src/interpreter.rs:145-159 | two numbers add, two strings concatenate, a string and a number give the number's text followed by the string whichever side the number is on, and other pairings are errors |
| InterpreterProperties.DivisionByZeroFails | src/interpreter.rs:181-189 | `/` by zero is an error; any other divisor gives the quotient |
| InterpreterProperties.ArithmeticOperators | src/interpreter.rs:161-180 | through the dispatch on the operator, `a - b`, `a * b` and `a % b` on two numbers are the difference, the product and `Rem(a, b)` |
| InterpreterProperties.ComparisonOperators | src/interpreter.rs:190-213 | through the dispatch on the operator, `a > b`, `a >= b`, `a < b` and `a <= b` on two numbers are the Bool of that comparison |
| InterpreterProperties.NumericOperatorsNeedNumbers | src/interpreter.rs:161-213 | the arithmetic and comparison operators reject anything but two numbers |
| InterpreterProperties.EqualityOperators | src/interpreter.rs:214-215 | `!=` is the negation of `==`, which is structural equality of atomic values; comparing callables is an error |
| InterpreterProperties.RemainderBounds | src/interpreter.rs:161-166 | for a non-zero divisor the remainder is the dividend less a whole number of divisors, smaller than the divisor in magnitude, with the dividend's sign |
| FuelProperties.MoreFuelSameRun | src/interpreter.rs:43-53 | a statement run that did not run out of fuel ends the same way with any larger fuel |
| FuelProperties.MoreFuelSameLoop | src/interpreter.rs:43-53 | the same for a `while` loop |
| FuelProperties.MoreFuelSameTurn | src/interpreter.rs:47-52 | the same for one iteration: the body, and the rest of the loop after it with one unit of fuel less |
| FuelProperties.MoreFuelSameSeq | src/interpreter.rs:261-265 | the same for a sequence of statements |
| ScopeProperties.EvalKeepsChain | src/interpreter.rs:55-219 | an expression with no assignment and no postfix update anywhere in it leaves the chain exactly as it found it |
| ScopeProperties.ArgsKeepChain | src/interpreter.rs:69-84 | the same for the arguments of a call |
| ScopeProperties.ExecKeepsOuter | src/interpreter.rs:237-258 | a statement that assigns nothing leaves every enclosing scope, names and values, as it was, and the number of scopes too |
| ScopeProperties.BlockKeepsChain | src/interpreter.rs:22-30 | a block whose statements assign nothing gives back exactly the chain it started from |
| ScopeProperties.LoopKeepsOuter | src/interpreter.rs:43-53 | a `while` whose condition and body assign nothing leaves every enclosing scope as it was |
| ScopeProperties.SeqKeepsOuter | src/interpreter.rs:22-30 | the same for the statements of a block, run in order |
| ScopeProperties.ShadowedNameRestored | src/interpreter.rs:22-30 | `let a = 1; { let a = 2; } print a;` prints 1 and leaves `a` bound to 1 |
| ScopeProperties.LetOnEmpty | src/interpreter.rs:247-255 | `let a = n;` in a single empty scope binds `a` to `n` |
| ScopeProperties.InnerLetDropped | src/interpreter.rs:22-30 | a block holding only a `let` leaves the chain and the console as they were |
| ScopeProperties.PrintBound | src/interpreter.rs:243-246 | `print a;` with `a` bound to 1 prints 1 |

## Left out

- Scanner.NumberTurn: the literal is the exact decimal value of the digits, not the nearest `f32`. `parse::<f32>` never fails on a digit run, so its error arm (src/scanner.rs:411-413) cannot be reached and is not modelled.
- `f32` arithmetic is modelled on `real`s: there is no rounding, overflow to infinity, NaN or `-0.0`. The remainder by zero, which is NaN in the source, is the host function `zeroRem`.
- Converting a number to text (`f32::to_string`, used by `+` and by printing) is the host function `numText`. Its format is not modelled.
- Calling a callable is the host function `call`, applied to an identity and the argument values. The model does not cover arity, a callable that changes the scopes, or `callable.rs`.
- Printing: `println!` is an `Output` line appended to the interpreter's console list. `Printed(v)` keeps the value, not its rendering.
- Interpreter.ExecWhile: a `while` loop that does not stop is cut short by the fuel bound and fails with `OutOfFuel`. The model does not capture non-termination itself.
- Parse and runtime errors are `Failure` values, where the source panics. The lines the source prints before panicking are not modelled. After an error the model still drops the scope of the block it was in; the source has no state after a panic.
- Parser.ParsePrimary: a NUMBER or STRING token whose literal has the other variant is a `MalformedLiteral` error. The scanner proves such a token is never produced (ScannerProperties.ScanTokensWellFormed). The source re-parses the token's literal text through `Token::literal()`. That method belongs to a revision of `src/token.rs` that is not part of this model: the `src/token.rs` here has no such method.
- The parser requires a token vector that ends with EOF (`ValidTokens`). The scanner always produces one (ScannerProperties.ScanEndsWithOneEof). Parser.Parser.Advance also requires a token before an EOF cursor, which the source's `previous` needs so as not to panic.
- The parser in `src/parser.rs` builds no `if`, `while`, logical, postfix or call nodes, and its factor level has no `%`. The evaluator handles all of these, so they appear only in the `Interpreter` part of the model.
- `print_expr` (src/parser.rs:286-322) is a debugging printer that nothing in the core calls. `synchronize` (src/parser.rs:324-344) is commented out.
- `src/main.rs`, `src/terminal_reader.rs`, `src/token.rs` and `src/callable.rs` are not part of this model. They are the command line, the terminal input, `Display` formatting and callables.
- `Rc` sharing and the `mem::replace` in `evaluate_blocks` are modelled as plain values. Values are immutable, so sharing is not observable.
