# Lox front end and value semantics in Dafny

This project models the front half of a Rust tree-walking interpreter for the Lox language, together with its value semantics:

- the character scanner;
- the token model and reserved-keyword table;
- the recursive-descent parser with error recovery;
- the two prefix s-expression printers;
- the flat variable environment;
- the evaluator for the expression and statement forms the interpreter implements.

It then proves properties of that model.

Where the source changes state, the model does too:

- `Scanning.Scanner` is a class with the scanner's `start`, `current`, `line`, `tokens` and `errors` fields. Its methods (`Advance`, `Match2`, `AddToken2`, the string and comment loops, `ScanToken`, `ScanTokens`) are each proved equal to a function in `ScannerSpec`.
- `Parsing.Parser` is a class over a token sequence and a `current` cursor. Every grammar procedure is a method proved equal to a function in `ParserSpec`.
- `Environments.Environment` holds the `values` map that `define` updates.
- `Interpreter.Interp` owns an environment and an output sequence. Its statement visitors are proved equal to the functions `Exec` and `ExecAll`.

The properties are proved about the specification functions, in `ScannerProperties`, `ParserProperties`, `ParserShapes`, `Printer`, `AstPrinter`, `Environments`, `Interpreter` and `Pipeline`.

Modules and files:

- `wrappers.dfy`: `Option` and `Result`.
- `tokens.dfy`: `TokenType`, the keyword table, `Literal`, `Value` and `Token`.
- `syntax.dfy`: the unified `Expr`/`Stmt` tree that the parser builds.
- `scanner_spec.dfy`, `scanner.dfy` and `scanner_properties.dfy`: the scanner.
- `parser_spec.dfy`, `parser.dfy`, `parser_properties.dfy` and `parser_shapes.dfy`: the parser; the last proves the tree shapes of the expression levels, unary, assignment, if and while for every token list.
- `ast_printer.dfy`: the four-variant printer of `src/lox/ast/mod.rs`.
- `printer.dfy`: the extended printer of `src/lox/ast/printer.rs`.
- `environment.dfy`: the environment.
- `interpreter.dfy`: the evaluator.
- `pipeline.dfy`: the interpreter's own test program, parsed and run end to end.

## Modelling decisions

- **Numbers.** A `Number` is the 64-bit pattern of an IEEE double (`bv64`). Arithmetic, comparison and equality on numbers come from a parameter record `Arith`, and number-to-text formatting from a parameter function `numText`. No floating-point fact is relied on or proved.
- **Source text.** The source text is an ASCII `seq<char>`. The scanner's byte slicing and `chars().nth` agree on such text.
- **Rust panics.** A slice with out-of-range bounds panics in Rust. There the scanner model returns `None`, so a panicking scan is an explicit outcome.
- **Reported errors.** Scan errors and parse errors are recorded in a list, and scanning or parsing continues. For scan errors this is what the code does: the scanner reports through the top-level `error` (src/main.rs:141-147), which only writes to standard error. The parser reports through `lox::error` (src/lox/mod.rs:5-11), which panics. For parse errors the model therefore departs from the code and follows the recovery structure of `parse` and `synchronise` in place of that panic.
- **The parser's cursor.** The parser's results carry the cursor position, on errors too, so the class methods and the spec functions advance identically. The six binary precedence levels (`or` … `factor`) share one parametrised procedure, `LevelExpr`/`LevelLoop`, indexed by a `Level`. Each Rust method (`Or`, `And`, …) is still its own Dafny method.
- **Printing.** The evaluator appends `stringify(v)` to an output sequence instead of writing to standard output.
- **Unimplemented evaluation.** Evaluation of `Logical`, `Assign` and `Call` fails with a distinct `NotEvaluated` error. So does execution of `Block`, `If`, `While` and `Func`. The interpreter has no code for these forms.

### Where the code differs from the usual Lox design

The model follows the code in each case.

- **Strings in print.** `print` of a string shows it with surrounding double quotes (`stringify`), rather than verbatim.
- **Scanner rules.** The scanner has no number or identifier rule. Digits and letters are "unexpected character" errors, so the keyword table is used by nothing in this snapshot.
- **Unterminated strings.** An unterminated string literal reports its error and then panics, instead of letting scanning continue (see Findings).
- **Runtime error messages.** They are the code's own wording:
  - "couldn't visit variable";
  - "unary minus - value must be a number";
  - "Unexpected binary operator for strings";
  - "Unexpected binary operator for numbers";
  - "no more valid operators etc.".
- **Parentheses after `if`, `while` and `for`.** The `consume` calls for `(` and `)` discard their results, so a missing parenthesis there is not an error. `ParserProperties.IfWithoutParentheses` shows `if a b;` parsing as an `if` statement.
- **`consume` at EOF.** `check` is false at EOF, so `consume(EOF, …)` always fails.

## Model

| member | source | states |
|---|---|---|
| Scanning.Scanner.constructor | src/scanner.rs:15-23 | a new scanner holds the source with start 0, current 0, line 1 and no tokens or errors |
| Scanning.Scanner.Advance | src/scanner.rs:158-162 | returns the character at the old cursor (None past the end) and moves the cursor by exactly one |
| Scanning.Scanner.Match2 | src/scanner.rs:139-146 | true exactly when the next character is the expected one, and only then consumes it |
| Scanning.Scanner.AddToken2 | src/scanner.rs:168-176 | appends the token with lexeme source[start..current], the given literal (Nil when absent) and the current line; fails, changing nothing, when the slice is out of range |
| Scanning.Scanner.AddToken | src/scanner.rs:164-166 | add_token is add_token2 with no literal |
| Scanning.Scanner.StringLoop | src/scanner.rs:120-125 | the string loop leaves the cursor and line where the specification function StringEnd puts them, nothing else changed |
| Scanning.Scanner.StringLiteral | src/scanner.rs:119-136 | string() succeeds exactly when the specification StringLit succeeds, and then leaves its state |
| Scanning.Scanner.SkipComment | src/scanner.rs:92-97 | the comment loop leaves cursor and line where CommentEnd puts them |
| Scanning.Scanner.ScanToken | src/scanner.rs:44-117 | one scan_token step succeeds exactly when the specification ScanToken does, with the same new state |
| Scanning.Scanner.ScanTokens | src/scanner.rs:25-38 | scanTokens returns the specification's token list plus one EOF token on the final line, and None exactly when a step panics |
| Scanning.StringEndStep | src/scanner.rs:120-125 | one iteration of the string loop: a non-quote character is passed and a newline counts a line |
| Scanning.StringLitCases | src/scanner.rs:127-133 | after the loop, string() reports "Unterminated string." at the end, otherwise builds the token (the corrected rule consumes the closing quote first) |
| ScannerSpec.CharAt | src/scanner.rs:158-162 | the character advance reads is defined exactly for in-range positions and is that character |
| ScannerSpec.Advanced | src/scanner.rs:158-162 | advance moves current by one and changes no other field |
| ScannerSpec.PeekAt | src/scanner.rs:148-156 | peek is the current character, or '\0' at or past the end |
| ScannerSpec.AddToken | src/scanner.rs:168-176 | add_token2 succeeds exactly when start <= current <= length, and then appends the token over source[start..current] on the current line |
| ScannerSpec.CommentEnd | src/scanner.rs:92-97 | the comment loop consumes up to and including the next newline (counting one line) or runs past the end, passing no newline on the way |
| ScannerSpec.StringEnd | src/scanner.rs:120-125 | the string loop stops on a quote or one past the end, never before its start, and the line never decreases |
| ScannerSpec.StringEndPasses | src/scanner.rs:120-125 | the string loop passes no quote, and the line grows by the number of newlines passed |
| ScannerSpec.NewlinesShift | src/scanner.rs:121-123 | the newline count of a slice splits at its first character |
| ScannerSpec.StringLit | src/scanner.rs:119-136 | string() only moves the cursor forward, keeps start and never lowers the line |
| ScannerSpec.StringToken | src/scanner.rs:131-133 | the string token is built exactly when the value slice start+1..current-1 is in range, with lexeme source[start..current] |
| ScannerSpec.ScanToken | src/scanner.rs:44-117 | a successful scan_token step consumes at least one character, keeps start and never lowers the line |
| ScannerSpec.ScanFrom | src/scanner.rs:26-29 | the scanning loop, when it does not panic, ends at the end of the input with a line no lower than where it began |
| ScannerProperties.AddTokenFits | src/scanner.rs:168-176 | every token add_token emits has lexeme source[start..current] and the current line |
| ScannerProperties.StringLitFits | src/scanner.rs:119-136 | a string literal step emits a token (or an error) that fits the step's start, cursor and line |
| ScannerProperties.SingleFits | src/scanner.rs:47-56 | a single-character token step succeeds and its token fits its lexeme and line |
| ScannerProperties.EqualOrFits | src/scanner.rs:57-84 | the one-or-two-character choice emits a fitting token |
| ScannerProperties.PairFits | src/scanner.rs:57-84 | a step on ! = < > succeeds with a fitting token |
| ScannerProperties.SlashFits | src/scanner.rs:86-101 | a step on / succeeds, emitting a fitting SLASH or nothing for a comment |
| ScannerProperties.QuoteFits | src/scanner.rs:108-110 | a step on a quote, when it succeeds, emits a fitting token or error |
| ScannerProperties.OtherFits | src/scanner.rs:102-114 | whitespace, newline and unexpected characters succeed and emit no token |
| ScannerProperties.CorrectedStringLitTotal | src/scanner.rs:119-136 | with the closing quote consumed, string() never panics |
| ScannerProperties.ScanTokenEmits | src/scanner.rs:44-117 | every step emits only fitting tokens, and only a string literal under the code as written can panic |
| ScannerProperties.AddedFitCompose | src/scanner.rs:26-29 | fitting steps compose along the scanning loop |
| ScannerProperties.ScanFromEmits | src/scanner.rs:26-29 | every token the loop adds is not EOF, has a lexeme cut from the source at or after where the loop started, and lines that never decrease |
| ScannerProperties.EofExactlyOnceAtEnd | src/scanner.rs:25-38 | the token list ends with exactly one EOF token, with empty lexeme, Nil literal and the final line, and has no other EOF |
| ScannerProperties.LinesNeverDecrease | src/scanner.rs:44-125 | token lines are at least 1 and never decrease along the list |
| ScannerProperties.LexemesFromSource | src/scanner.rs:168-176 | every token before the final EOF has a lexeme cut from the source text |
| ScannerProperties.CorrectedScanFromTotal | src/scanner.rs:26-29 | with the corrected string rule the scanning loop never panics |
| ScannerProperties.CorrectedNeverStops | src/scanner.rs:25-38 | with the corrected string rule scanTokens always returns a token list |
| ScannerProperties.QuoteStops | src/scanner.rs:119-136 | as written, any scan that reaches a quote panics |
| ScannerProperties.NoStringTokenAsWritten | src/scanner.rs:119-136 | as written, a scan that does not panic adds no STRING token |
| ScannerProperties.NoStringCompose | src/scanner.rs:44-117 | a non-quote step followed by a STRING-free tail adds no STRING token |
| ScannerProperties.NoStringTokenInAnyScan | src/scanner.rs:25-38 | as written, no token list scanTokens returns contains a STRING token |
| ScannerProperties.StringEndStopsAtQuote | src/scanner.rs:120-125 | the string loop stops exactly at the first quote |
| ScannerProperties.StringEndRunsOut | src/scanner.rs:120-125 | with no quote ahead the string loop runs one past the end |
| ScannerProperties.QuoteOpensLiteral | src/scanner.rs:108-110 | a quote hands the step to string() after consuming the quote |
| ScannerProperties.ClosedLiteralAsWritten | src/scanner.rs:127-133 | as written, a closed literal whose closing quote is at q yields lexeme source[start..q] and value start+1..q-1, or panics when q is start+1 |
| ScannerProperties.ClosedLiteralCorrected | src/scanner.rs:127-133 | corrected, the closing quote is consumed and the value is exactly the text between the quotes |
| ScannerProperties.AsWrittenStringLiteral | src/scanner.rs:119-136 | as written, a step on "…" leaves the cursor on the closing quote and drops the last character of the value; "" panics |
| ScannerProperties.QuotedAbAsWritten | src/scanner.rs:119-136 | as written, "ab" first yields the token "\"ab" with value "a", and the whole scan panics |
| ScannerProperties.CorrectedStringLiteral | src/scanner.rs:119-136 | corrected, a step on "…" consumes both quotes and yields the value between them |
| ScannerProperties.CorrectedUnterminated | src/scanner.rs:127-129 | corrected, an unterminated literal reports "Unterminated string." on its last line and emits no token |
| ScannerProperties.QuotedAbCorrected | src/scanner.rs:25-38 | corrected, "ab" scans to the STRING token with value ab and then EOF |
| ScannerProperties.SingleCharacterToken | src/scanner.rs:47-56 | each of ( ) { } , . - + ; * yields exactly one token of its kind whose lexeme is that character |
| ScannerProperties.TwoCharacterToken | src/scanner.rs:57-84 | ! = < > followed by = yield the two-character token, otherwise the one-character token |
| ScannerProperties.Match2Consumes | src/scanner.rs:139-146 | match2 matches exactly when the next character is the expected one |
| ScannerProperties.CommentSkipped | src/scanner.rs:86-97 | // emits nothing and consumes through the next newline, counting one line, or to the end |
| ScannerProperties.LoneSlash | src/scanner.rs:98-100 | a / not followed by / yields SLASH |
| ScannerProperties.WhitespaceAndNewline | src/scanner.rs:102-107 | space, \r and \t emit nothing; \n emits nothing and counts a line |
| ScannerProperties.UnexpectedCharacterReported | src/scanner.rs:112-114 | any other character is reported as an error on its line, emits no token, and scanning moves on |
| ScannerProperties.DigitsAndLettersUnexpected | src/scanner.rs:44-115 | digits, letters and _ are not recognised characters |
| Tokens.KeywordTableDomain | src/token_type.rs:30-49 | the table holds exactly the 16 reserved words |
| Tokens.KeywordKindsNamedAfterWords | src/token_type.rs:32-47 | each reserved word maps to the token type of the same name |
| Tokens.KeywordTableInjective | src/token_type.rs:30-49 | distinct words map to distinct token types, and no word maps to IDENTIFIER or EOF |
| Tokens.Val | src/token_type.rs:88-97 | val keeps the variant and the payload |
| Tokens.ValRoundTrip | src/token_type.rs:88-97 | val is a bijection between literals and values: mapping back recovers the literal, and the other way round |
| Tokens.Token.New | src/token_type.rs:61-68 | Token::new stores its four arguments unchanged |
| Parsing.Parser.constructor | src/lox/ast/parser.rs:20-25 | a new parser holds the tokens with the cursor at 0 |
| Parsing.Parser.Parse | src/lox/ast/parser.rs:26-42 | parse returns the statements and the errors the specification Parse gives |
| Parsing.Parser.Synchronise | src/lox/ast/parser.rs:44-58 | synchronise leaves the cursor where the specification Synchronise puts it |
| Parsing.Parser.Declaration | src/lox/ast/parser.rs:61-77 | declaration yields the specification's result and cursor |
| Parsing.Parser.VarDeclaration | src/lox/ast/parser.rs:79-94 | var_declaration yields the specification's result and cursor |
| Parsing.Parser.FuncDeclaration | src/lox/ast/parser.rs:96-126 | func_declaration yields the specification's result and cursor |
| Parsing.Parser.ParameterList | src/lox/ast/parser.rs:103-114 | the parameter loop yields the specification's parameter list and cursor |
| Parsing.Parser.Statement | src/lox/ast/parser.rs:128-146 | statement yields the specification's result and cursor |
| Parsing.Parser.PrintStatement | src/lox/ast/parser.rs:148-152 | print_statement yields the specification's result and cursor |
| Parsing.Parser.BlockStatement | src/lox/ast/parser.rs:154-163 | block_statement yields the specification's result and cursor |
| Parsing.Parser.IfStatement | src/lox/ast/parser.rs:165-177 | if_statement yields the specification's result and cursor |
| Parsing.Parser.WhileStatement | src/lox/ast/parser.rs:179-186 | while_statement yields the specification's result and cursor |
| Parsing.Parser.ForStatement | src/lox/ast/parser.rs:188-225 | for_statement yields the specification's desugared result and cursor |
| Parsing.Parser.ForInitializer | src/lox/ast/parser.rs:190-196 | the for initializer clause yields the specification's result and cursor |
| Parsing.Parser.ExprStatement | src/lox/ast/parser.rs:227-231 | expr_statement yields the specification's result and cursor |
| Parsing.Parser.ParseExpr | src/lox/ast/parser.rs:233-235 | parse_expr is Some exactly when expression succeeds, with its value |
| Parsing.Parser.Expression | src/lox/ast/parser.rs:237-239 | expression yields the specification's result and cursor |
| Parsing.Parser.Assignment | src/lox/ast/parser.rs:241-257 | assignment yields the specification's result and cursor |
| Parsing.Parser.Or | src/lox/ast/parser.rs:259-270 | or yields the result of the or level |
| Parsing.Parser.And | src/lox/ast/parser.rs:272-283 | and yields the result of the and level |
| Parsing.Parser.Equality | src/lox/ast/parser.rs:286-301 | equality yields the result of the equality level |
| Parsing.Parser.Comparison | src/lox/ast/parser.rs:303-319 | comparison yields the result of the comparison level |
| Parsing.Parser.Term | src/lox/ast/parser.rs:321-336 | term yields the result of the term level |
| Parsing.Parser.Factor | src/lox/ast/parser.rs:338-353 | factor yields the result of the factor level |
| Parsing.Parser.Unary | src/lox/ast/parser.rs:357-364 | unary yields the specification's result and cursor |
| Parsing.Parser.Call | src/lox/ast/parser.rs:366-381 | call yields the specification's result and cursor |
| Parsing.Parser.FinishCall | src/lox/ast/parser.rs:383-402 | finish_call yields the specification's argument list and cursor |
| Parsing.Parser.Primary | src/lox/ast/parser.rs:404-446 | primary yields the specification's result and cursor |
| Parsing.Parser.Consume | src/lox/ast/parser.rs:448-458 | consume yields the specification's token or error and cursor |
| Parsing.Parser.MatchTypes | src/lox/ast/parser.rs:471-479 | match_types is true exactly when the current type is listed, and then advances one token, otherwise not at all |
| Parsing.Parser.Advance | src/lox/ast/parser.rs:491-496 | advance moves the cursor one token, never past EOF, and returns the previous token |
| ParserSpec.Advanced | src/lox/ast/parser.rs:491-496 | the cursor after advance stays on a token, stays put exactly at EOF, and otherwise moves by one |
| ParserSpec.Consume | src/lox/ast/parser.rs:448-458 | consume succeeds exactly when the current token has the type (never EOF), then returning it and advancing one; otherwise the error carries the current token and the message and the cursor stays |
| ParserSpec.Expression | src/lox/ast/parser.rs:237-239 | expression keeps the cursor on a token and, on success, consumes at least one |
| ParserSpec.Assignment | src/lox/ast/parser.rs:241-257 | assignment keeps the cursor on a token and advances on success; its right associativity is ParserShapes.AssignmentPrefix and ParserShapes.AssignmentChain |
| ParserSpec.Operand | src/lox/ast/parser.rs:259-353 | the operand of a binary level keeps the cursor on a token and advances on success |
| ParserSpec.LevelExpr | src/lox/ast/parser.rs:259-353 | a binary level keeps the cursor on a token and advances on success; its tree shape is ParserShapes.LevelExprShape |
| ParserSpec.LevelLoop | src/lox/ast/parser.rs:259-353 | a binary-level loop never moves the cursor back or off the tokens; its left nesting is ParserShapes.LevelLoopNests |
| ParserSpec.Unary | src/lox/ast/parser.rs:357-364 | unary keeps the cursor on a token and advances on success; its right recursion is ParserShapes.UnaryPrefix and ParserShapes.UnaryRun |
| ParserSpec.Call | src/lox/ast/parser.rs:366-381 | call keeps the cursor on a token and advances on success |
| ParserSpec.CallLoop | src/lox/ast/parser.rs:370-379 | the call loop never moves the cursor back or off the tokens |
| ParserSpec.FinishCall | src/lox/ast/parser.rs:383-402 | finish_call keeps the cursor on a token and advances on success |
| ParserSpec.Arguments | src/lox/ast/parser.rs:388-398 | the argument loop keeps the cursor on a token and advances on success |
| ParserSpec.Primary | src/lox/ast/parser.rs:404-446 | primary keeps the cursor on a token and advances on success |
| ParserSpec.Declaration | src/lox/ast/parser.rs:61-77 | declaration keeps the cursor on a token and advances on success |
| ParserSpec.VarDeclaration | src/lox/ast/parser.rs:79-94 | var_declaration keeps the cursor on a token and advances on success |
| ParserSpec.FuncDeclaration | src/lox/ast/parser.rs:96-126 | func_declaration keeps the cursor on a token and advances on success |
| ParserSpec.Parameters | src/lox/ast/parser.rs:104-114 | the parameter loop never moves the cursor back or off the tokens |
| ParserSpec.Statement | src/lox/ast/parser.rs:128-146 | statement keeps the cursor on a token and advances on success |
| ParserSpec.PrintStatement | src/lox/ast/parser.rs:148-152 | print_statement keeps the cursor on a token and advances on success |
| ParserSpec.BlockStatement | src/lox/ast/parser.rs:154-163 | block_statement keeps the cursor on a token and advances on success |
| ParserSpec.BlockLoop | src/lox/ast/parser.rs:157-160 | the block loop keeps the cursor on a token and advances on success |
| ParserSpec.IfStatement | src/lox/ast/parser.rs:165-177 | if_statement keeps the cursor on a token and advances on success; the statement it builds is ParserShapes.IfStatementParts, IfElseParts and IfStatementRead |
| ParserSpec.WhileStatement | src/lox/ast/parser.rs:179-186 | while_statement keeps the cursor on a token and advances on success; the statement it builds is ParserShapes.WhileStatementParts and WhileStatementRead |
| ParserSpec.ForInitializer | src/lox/ast/parser.rs:190-196 | the for initializer keeps the cursor on a token and advances on success |
| ParserSpec.ForStatement | src/lox/ast/parser.rs:188-225 | for_statement keeps the cursor on a token and advances on success |
| ParserSpec.ForClause | src/lox/ast/parser.rs:198-209 | an optional for clause never moves the cursor back or off the tokens |
| ParserSpec.ExprStatement | src/lox/ast/parser.rs:227-231 | expr_statement keeps the cursor on a token and advances on success |
| ParserSpec.Synchronise | src/lox/ast/parser.rs:44-58 | synchronise stays on a token and moves at least one token unless at EOF |
| ParserSpec.SyncLoop | src/lox/ast/parser.rs:47-57 | the synchronise loop never moves the cursor back or off the tokens |
| ParserProperties.ArgumentsCapped | src/lox/ast/parser.rs:388-398 | a successful argument loop extends the arguments so far and never exceeds 255 |
| ParserProperties.FinishCallCapped | src/lox/ast/parser.rs:383-402 | a call accepts at most 255 arguments |
| ParserProperties.TooManyArguments | src/lox/ast/parser.rs:388-392 | with 255 arguments collected and no ) next, the error is "too many arguments" at the call's first token |
| ParserProperties.ArgumentsClose | src/lox/ast/parser.rs:398-399 | a ) ends the argument list and is consumed |
| ParserProperties.ParametersCapped | src/lox/ast/parser.rs:104-115 | a successful parameter loop extends the parameters so far, has at most 255 and stops before ) |
| ParserProperties.TooManyParameters | src/lox/ast/parser.rs:101-107 | at 255 parameters with no ) next, the parameter loop fails with "too many arguments" on first, the token func_declaration cloned after the ( |
| ParserProperties.ParametersAreIdentifiers | src/lox/ast/parser.rs:104-114 | every accepted parameter is an IDENTIFIER token |
| ParserProperties.BlockLoopShape | src/lox/ast/parser.rs:154-163 | a successful block loop yields a Block that extends the statements so far and ends right after } |
| ParserProperties.BlockStatementIsBlock | src/lox/ast/parser.rs:116-125 | a successful block_statement is a Block ending right after } |
| ParserProperties.SyncLoopStops | src/lox/ast/parser.rs:47-57 | the synchronise loop stops at the first boundary: after ; or before class fun var for if while print return, or at EOF |
| ParserProperties.SynchroniseStops | src/lox/ast/parser.rs:44-58 | synchronise skips one token and then stops at the first statement boundary |
| ParserProperties.ParseFromBound | src/lox/ast/parser.rs:26-42 | the parse loop only appends statements and errors, in order, at most one per token consumed |
| ParserProperties.ParseBound | src/lox/ast/parser.rs:26-42 | parse returns at most as many statements and errors together as there are tokens before EOF |
| ParserProperties.UnaryAtom | src/lox/ast/parser.rs:357-446 | a literal or identifier not followed by ( is a unary expression of one token |
| ParserProperties.UnaryClimbs | src/lox/ast/parser.rs:259-353 | a unary expression not followed by a binary operator is also the expression of every binary level |
| ParserProperties.LevelClimbs | src/lox/ast/parser.rs:237-353 | a level's expression not followed by an operator or = is the whole expression |
| ParserProperties.AtomExpression | src/lox/ast/parser.rs:237-446 | an atom followed by no operator, ( or = is a complete expression |
| ParserProperties.FactorOfUnary | src/lox/ast/parser.rs:338-353 | factor over a unary not followed by * or / is that unary |
| ParserProperties.FactorBindsTighter | src/lox/ast/parser.rs:321-353 | a + b * c parses as a + (b * c) |
| ParserProperties.TermLoopOfProduct | src/lox/ast/parser.rs:321-353 | the term loop on a + b * c takes the whole product b * c as the right operand of + |
| ParserProperties.TermGroupsLeft | src/lox/ast/parser.rs:321-336 | a - b - c parses as (a - b) - c |
| ParserProperties.TermLoopGroupsLeft | src/lox/ast/parser.rs:321-336 | the term loop on a - b - c nests a - b as the left operand of the second - |
| ParserProperties.AssignmentGroupsRight | src/lox/ast/parser.rs:241-257 | x = y = v parses as x = (y = v) |
| ParserProperties.AssignmentNeedsVariable | src/lox/ast/parser.rs:241-257 | = after anything but a variable is the error "trailing equal sign in non assignment expression??" at the = |
| ParserProperties.VarWithoutInitializer | src/lox/ast/parser.rs:86-93 | var x; declares x with the Null initializer |
| ParserProperties.VarWithInitializer | src/lox/ast/parser.rs:82-85 | var x = e; declares x with initializer e |
| ParserProperties.PrintDeclaration | src/lox/ast/parser.rs:61-152 | print e; at the top level is the print statement of e |
| ParserProperties.AtomStatement | src/lox/ast/parser.rs:227-231 | an atom followed by ; is an expression statement |
| ParserProperties.ForStatementParts | src/lox/ast/parser.rs:188-225 | a for statement is its body desugared with the initializer, condition and increment it read |
| ParserProperties.ForInitializerAtom | src/lox/ast/parser.rs:190-196 | an expression initializer is an expression statement |
| ParserProperties.StatementFor | src/lox/ast/parser.rs:139-140 | for dispatches to for_statement after the keyword |
| ParserProperties.ForStatementOfAtoms | src/lox/ast/parser.rs:188-225 | the for statement of for (x; y; z) w; desugars to Block[x; While(y, Block[w; z])] |
| ParserProperties.ForDefaultsToTrue | src/lox/ast/parser.rs:188-225 | for (;;) w; is While(true, w): a missing condition is true and the absent clauses add no blocks |
| ParserProperties.StatementIf | src/lox/ast/parser.rs:135-136 | if dispatches to if_statement after the keyword |
| ParserProperties.StatementOfExpression | src/lox/ast/parser.rs:128-143 | a statement starting with none of print, {, if, while, for is parsed as an expression statement |
| ParserProperties.IfWithoutParentheses | src/lox/ast/parser.rs:165-177 | the if statement of if a b; is If(a, b;), because the parenthesis checks are discarded |
| ParserProperties.ExprDeclaration | src/lox/ast/parser.rs:61-146 | a declaration that starts with no statement keyword is an expression statement |
| ParserProperties.ErrorRecovery | src/lox/ast/parser.rs:26-58 | one malformed statement followed by a good one gives exactly one error and keeps the good statement |
| ParserProperties.CallTestExpression | src/lox/ast/parser.rs:519-542 | every token list shaped like the test's func(x, y, z)(2); parses to the nested call with its arguments in order |
| ParserProperties.ThreeArguments | src/lox/ast/parser.rs:383-402 | the argument list x, y, z) is the three variables in order, ending after the ) |
| ParserProperties.OneArgument | src/lox/ast/parser.rs:383-402 | the argument list 2) is the one literal, ending after the ) |
| ParserShapes.LevelOfOperators | src/lox/ast/parser.rs:259-353 | each operator token is matched by exactly one binary level's loop |
| ParserShapes.CallLoopShape | src/lox/ast/parser.rs:370-379 | the call loop yields its callee or a call node around it |
| ParserShapes.UnaryShape | src/lox/ast/parser.rs:357-364 | unary yields a unary node, a call, a grouping, a literal or a variable, never a binary, logical or assignment node |
| ParserShapes.UnaryPrefix | src/lox/ast/parser.rs:357-364 | for every token list, ! or - followed by a unary expression e is the unary node of that operator over e, ending where e ends |
| ParserShapes.UnaryRun | src/lox/ast/parser.rs:357-364 | unary is right-recursive: n prefix operators nest n unary nodes, the first outermost, around the unary expression after them |
| ParserShapes.NestedIsOperand | src/lox/ast/parser.rs:259-353 | a tree left-nested at a level, whose first operand fits the level, is an operand of every looser level |
| ParserShapes.OperandShape | src/lox/ast/parser.rs:259-364 | precedence, for every level: an operand has no assignment and no operator of its level or a looser one at its root |
| ParserShapes.LevelLoopNests | src/lox/ast/parser.rs:259-353 | for every level, the loop only stacks nodes of that level, with that level's operators, on the left of the tree so far, each with an operand of the level on its right |
| ParserShapes.NoSameLevelOnTheRight | src/lox/ast/parser.rs:259-353 | left associativity: the right child of a level's node is never a node of the same level |
| ParserShapes.LevelExprShape | src/lox/ast/parser.rs:259-353 | or, and, equality, comparison, term and factor each yield their first operand under left-nested nodes of the level, every operand binding tighter than the level |
| ParserShapes.AssignmentPrefix | src/lox/ast/parser.rs:241-257 | for every token list, x = followed by an assignment v is the assignment of v to x, ending where v ends |
| ParserShapes.AssignmentChain | src/lox/ast/parser.rs:241-257 | right associativity: x1 = … = xn = v assigns v to xn first, x1 outermost |
| ParserShapes.SkipIsDiscardedConsume | src/lox/ast/parser.rs:165-186 | a consume whose result is discarded moves past the expected token when it is there and stays put otherwise |
| ParserShapes.WhileStatementParts | src/lox/ast/parser.rs:179-186 | for every token list, the condition and body read after the optional parentheses make While(condition, body) |
| ParserShapes.WhileStatementRead | src/lox/ast/parser.rs:179-186 | a successful while_statement is While of the expression and the statement it read |
| ParserShapes.IfStatementParts | src/lox/ast/parser.rs:165-177 | for every token list, a condition and then-branch not followed by else make If(condition, then, none) |
| ParserShapes.IfElseParts | src/lox/ast/parser.rs:165-177 | a then-branch followed by else and a statement makes If(condition, then, that statement) |
| ParserShapes.IfStatementRead | src/lox/ast/parser.rs:165-177 | a successful if_statement is the If of the condition and then-branch it read, with an else-branch exactly when else follows the then-branch |
| ParserShapes.IfElseRead | src/lox/ast/parser.rs:165-177 | once else follows the then-branch, if_statement succeeds exactly when the statement after else does, with that statement as its else-branch and ending where it ends |
| ParserShapes.IfStatementNeedsParts | src/lox/ast/parser.rs:165-177 | if_statement fails when its condition or its then-branch fails |
| AstPrinter.ParenthesizedShape | src/lox/ast/mod.rs:58-64 | parenthesize gives (name), (name a) and (name a b) |
| AstPrinter.Parenthesize | src/lox/ast/mod.rs:58-64 | the push_str loop builds ( name, then a space and each printed expression, then ) |
| AstPrinter.LiteralText | src/lox/ast/mod.rs:89-96 | strings print verbatim, nil as nil, booleans as true/false |
| AstPrinter.PrintShapes | src/lox/ast/mod.rs:68-87 | Binary prints (op l r), Unary (op e) and Grouping (group e) |
| AstPrinter.ExampleOperands | src/lox/ast/mod.rs:108-117 | the test's operands print (- 123) and (group 45.67) |
| AstPrinter.ExamplePrints | src/lox/ast/mod.rs:106-122 | the test tree prints exactly (* (- 123) (group 45.67)) |
| Printer.Parenthesize | src/lox/ast/printer.rs:11-17 | the extended printer's parenthesize loop has the same (name e1 … en) shape |
| Printer.PrintAll | src/lox/ast/printer.rs:37-40 | one printed string per argument |
| Printer.PrintAssignShape | src/lox/ast/printer.rs:22-24 | Assign prints (assign= var:name value) |
| Printer.PrintLogicalShape | src/lox/ast/printer.rs:26-28 | Logical prints (op l r) |
| Printer.PrintBinaryShape | src/lox/ast/printer.rs:30-32 | Binary prints (op l r) |
| Printer.PrintUnaryShape | src/lox/ast/printer.rs:34-44 | Unary prints (op e) and Grouping (group e) |
| Printer.PrintLeafShapes | src/lox/ast/printer.rs:55-59 | a variable prints var:name and the null expression null |
| Printer.PrintCallIgnoresCallee | src/lox/ast/printer.rs:37-40 | a call's text does not depend on its callee or parenthesis |
| Printer.PrintCallShape | src/lox/ast/printer.rs:37-40 | a one-argument call prints (func_call with args a) |
| Printer.AgreesWithFirstPrinter | src/lox/ast/printer.rs:21-53 | on the four-variant trees both printers give the same text |
| Printer.ExamplePrints | src/lox/ast/printer.rs:70-85 | the test tree prints exactly (* (- 123) (group 45.67)) |
| Printer.ParenthesizedBalanced | src/lox/ast/printer.rs:11-17 | parenthesize over balanced parts and a parenthesis-free name is balanced |
| Printer.PrintBalanced | src/lox/ast/printer.rs:21-59 | every printed tree has balanced parentheses when its leaves print none |
| Environments.Defined | src/lox/ast/environment.rs:13-15 | after define, the name is bound to the value, every other binding is unchanged and the names are the old ones plus this one |
| Environments.RedefineOverwrites | src/lox/ast/environment.rs:13-15 | defining a name twice keeps only the second value |
| Environments.DefinitionsCommute | src/lox/ast/environment.rs:13-15 | definitions of distinct names commute |
| Environments.Environment.constructor | src/lox/ast/environment.rs:17-21 | a new environment is empty |
| Environments.Environment.Define | src/lox/ast/environment.rs:13-15 | define replaces the map by Defined of the old one |
| Interpreter.IsEqual | src/lox/ast/interpreter.rs:201-209 | different kinds are never equal, nil equals nil, strings and booleans compare payloads, numbers by the host equality |
| Interpreter.IsEqualSymmetric | src/lox/ast/interpreter.rs:201-209 | is_equal is symmetric when the host number equality is |
| Interpreter.IsEqualReflexive | src/lox/ast/interpreter.rs:201-209 | is_equal is reflexive on non-numbers |
| Interpreter.IsEqualStructural | src/lox/ast/interpreter.rs:201-209 | unless both are numbers, is_equal is equality of the values |
| Interpreter.IsTruthy | src/lox/ast/interpreter.rs:211-218 | false exactly for nil and false |
| Interpreter.TrimPointZero | src/lox/ast/interpreter.rs:26-33 | a text ending in .0 loses exactly that suffix, any other text is unchanged |
| Interpreter.Stringify | src/lox/ast/interpreter.rs:23-39 | a string is shown in double quotes, booleans as true/false, nil as nil, numbers by the host text with .0 trimmed |
| Interpreter.StringifyUnquotes | src/lox/ast/interpreter.rs:35-35 | a stringified string strips back to the string, distinct strings show differently, and no boolean or nil shows like a string |
| Interpreter.UnaryRules | src/lox/ast/interpreter.rs:155-174 | ! never fails and negates truthiness; - fails exactly on non-numbers, with its message at the operator; any other operator fails |
| Interpreter.EqualityNeverFails | src/lox/ast/interpreter.rs:120-122 | == and != never fail, and != is the negation of == |
| Interpreter.StringOperands | src/lox/ast/interpreter.rs:139-146 | on two strings + concatenates and every other operator fails with "Unexpected binary operator for strings" |
| Interpreter.MixedOperandsFail | src/lox/ast/interpreter.rs:124-148 | mixed kinds, booleans and nil fail every non-equality operator with "no more valid operators etc." |
| Interpreter.NumberOperands | src/lox/ast/interpreter.rs:125-138 | on two numbers exactly the arithmetic and comparison operators succeed, the others fail with "Unexpected binary operator for numbers" |
| Interpreter.NumberArithmetic | src/lox/ast/interpreter.rs:131-134 | + - * / on numbers are the host operations |
| Interpreter.NumberComparisons | src/lox/ast/interpreter.rs:127-130 | > >= < <= on numbers are the host comparisons, as booleans |
| Interpreter.BinaryEvaluationOrder | src/lox/ast/interpreter.rs:115-152 | the left operand's error comes first, then the right's, and only then the operator is applied |
| Interpreter.VariableLookup | src/lox/ast/interpreter.rs:184-196 | a bound name gives its value; an unbound one fails with "couldn't visit variable" at the name |
| Interpreter.ClosedIndependent | src/lox/ast/interpreter.rs:115-182 | an expression without variables evaluates the same in every environment |
| Interpreter.GroupingAndLiteral | src/lox/ast/interpreter.rs:176-198 | grouping is transparent, a literal gives val of it and null gives nil |
| Interpreter.ExecEffects | src/lox/ast/interpreter.rs:92-109 | only expression, print and var statements execute; an expression statement changes nothing, print appends stringify of the value, var binds the value |
| Interpreter.ExecAllAppend | src/lox/ast/interpreter.rs:56-63 | running a + b runs a and, unless it failed, then b from where a left off |
| Interpreter.OutputOnlyGrows | src/lox/ast/interpreter.rs:56-63 | running statements only appends to the output |
| Interpreter.ScenarioRuns | src/lox/ast/interpreter.rs:318-330 | the test program prints 6 then 3 and leaves x bound to 3 |
| Interpreter.Interp.constructor | src/lox/ast/interpreter.rs:16-20 | a new interpreter has an empty environment and no output |
| Interpreter.Interp.VisitExprStatement | src/lox/ast/interpreter.rs:92-95 | an expression statement fails exactly when its expression does, with that error |
| Interpreter.Interp.VisitPrintStatement | src/lox/ast/interpreter.rs:97-102 | print succeeds with the state Exec gives, or fails with its error and changes nothing |
| Interpreter.Interp.VisitVarStatement | src/lox/ast/interpreter.rs:104-109 | var succeeds with the state Exec gives, or fails with its error and changes nothing |
| Interpreter.Interp.VisitStatement | src/lox/ast/interpreter.rs:92-109 | each statement succeeds with the state Exec gives, or fails with its error and changes nothing |
| Interpreter.Interp.InterpretStmts | src/lox/ast/interpreter.rs:56-63 | interpret_stmts ends in the state ExecAll gives and fails exactly when a statement fails, with the first error |
| Pipeline.VarDeclarationStarts | src/lox/ast/parser.rs:61-77 | var at a declaration hands the rest to var_declaration |
| Pipeline.VarOfAtom | src/lox/ast/parser.rs:79-94 | var x = c; for an atom c declares x with initializer c |
| Pipeline.PrintProduct | src/lox/ast/parser.rs:148-152 | print a * b; is the print of the product |
| Pipeline.PrintThenEnd | src/lox/ast/parser.rs:26-42 | a final print y; appends its statement with no error |
| Pipeline.ThreeStatements | src/lox/ast/parser.rs:26-42 | print a * b; var x = c; print y; parses to its three statements with no error |
| Pipeline.ScenarioShape | src/lox/ast/interpreter.rs:318-318 | the test program's tokens have that shape |
| Pipeline.ScenarioAtoms | src/lox/ast/interpreter.rs:318-318 | the test program's atoms build the statements the evaluator runs |
| Pipeline.ScenarioParses | src/lox/ast/interpreter.rs:318-324 | the test program's tokens parse to those statements with no error |
| Pipeline.ScenarioEndToEnd | src/lox/ast/interpreter.rs:318-330 | parsing and running the test program prints 6 then 3 and binds x to 3 |

## Left out

- Input and output: the entry point, file and standard-input reading, the REPL, debug printing and exit codes are not modelled. Printing appends to the interpreter's output sequence.
- Floating point: numbers are bit patterns, and their arithmetic, comparisons, equality and text come from parameters. IEEE behaviour such as NaN inequality is not modelled.
- Interpreter.Stringify: numbers go through a host text function and the `.0` trim. What `f64` formatting produces is not modelled. `f64` Display prints whole numbers without `.0` (123.0 as "123"), so with it the trim at interpreter.rs:28-33 never changes a number's text; the scenario lemmas therefore assume only the trimmed text, which holds for either rendering.
- AstPrinter.LiteralText: numbers print through the same host text function. `f64::to_string` is not modelled.
- Interp::interpret, which evaluates a single expression and writes it, is not modelled: it is I/O around `Evaluate` and `Stringify`.
- Standard-error output. A scan error is recorded in the list where the code writes it to standard error. The parser's error function panics; a parse error is recorded instead, and parsing continues.
- The unimplemented forms need code the snapshot lacks, so they have no semantics here. These are the evaluation of Logical, Assign and Call, and the execution of Block, If, While and Func. All of them fail with NotEvaluated. Scope chains and closures are not modelled: the environment is one flat map.
- The draft evaluator in `interpreter_old.rs` and the `example()` functions are superseded drafts and are not part of this model.
- Visitor dispatch is modelled as a `match` on the tree. `RuntimeError` is modelled as an error record with the token and the message.
- The parser's `i32` cursor is a `nat`. It starts at 0 and never passes the EOF index (Parsing.Parser.Advance), so no overflow or negative index arises.
- Parsing.Parser.FuncDeclaration: the model keeps the code's error for a function body that is not a block. It is not proved unreachable: that needs an induction over the whole mutually recursive grammar.
- The token debug format (`Display` for tokens) is not modelled.
- ParserSpec.LevelLoop: each right child is shown to have an operand's shape (no node of the level or a looser one at its root, and no assignment), not to be the operand parsed at a particular token position; ParserShapes.LevelLoopNests states the shape for every token list.
- The scanner has no number or identifier rule in this snapshot. The end-to-end scenario therefore starts from the token list a full scanner would produce for `print 2*3; var x = 3; print x;`.
- The snapshot does not build as one unit: the test calls `scan_tokens` but the scanner defines `scanTokens`, and `mod.rs` declares a four-variant `Expr`. All files are modelled over one unified tree.
- Source text is ASCII: the mix of byte slicing and character indexing is not modelled for multi-byte text.

## Findings

| source | as written | input that shows it | evidently intended | confidence | as-written member | corrected member |
|---|---|---|---|---|---|---|
| src/scanner.rs:119-136 | string() never consumes the closing quote and takes the value as start+1..current-1, so the value loses its last character and the closing quote then opens a new literal that panics | `"ab"` | consume the closing quote and take the text between the quotes as the value | not executed | ScannerProperties.QuotedAbAsWritten | ScannerProperties.QuotedAbCorrected |
| src/scanner.rs:131-133 | for the empty literal the value slice start+1..current-1 has its start past its end, which panics | `""` | the empty string value | not executed | ScannerProperties.AsWrittenStringLiteral | ScannerProperties.CorrectedStringLiteral |
| src/scanner.rs:127-133 | an unterminated literal reports its error and then builds the token over a slice past the end of the source, which panics | `"a` | report "Unterminated string." and continue scanning | not executed | ScannerProperties.QuoteStops | ScannerProperties.CorrectedUnterminated |
| src/scanner.rs:25-38 | because of the three cases above, no scan that reaches a quote completes, so the scanner never returns a STRING token | `"ab"` | every input scans to a token list | not executed | ScannerProperties.NoStringTokenInAnyScan | ScannerProperties.CorrectedNeverStops |
