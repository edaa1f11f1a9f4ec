# A verified model of the rlox front end

rlox is a Rust implementation of the Lox language, built in two generations.

- **The older crate (`src/`)** has two parts:
  - a scanner whose tokens carry a kind and a line;
  - an expression-only parser with its own tree types.
- **The newer crate (`rlox/src/`)** has:
  - a scanner whose tokens also carry their lexeme;
  - a statement parser (`var`, `print`, expression statements, assignment);
  - the syntax trees and their visitors;
  - runtime values;
  - a chain of variable scopes;
  - an evaluator for expressions;
  - a stage-tagged error type.

This project models all of these in Dafny and proves what they promise.

**Scanners.** Each scanner is written twice:

- as a reference function over the source text (`Lexer.Scan`, and `Tokenizer.Tokenization` for the older scanner);
- as a class with the source's own fields (`source`, `tokens`, `start`, `current`, `line`), whose methods mutate them step by step.

Every method is proved to compute the reference function. The scanner's promises are then proved about the function:

- maximal munch of `!=`, `<=` and the like;
- comments and whitespace;
- string and number literals;
- keywords;
- lexemes that are the source windows they came from, in order and disjoint;
- lexemes that scan back, on their own, to one token of their own kind;
- line numbers that count newlines;
- exactly one final EOF token.

**Parsers.** Each parser is written the same way:

- a reference grammar (`Grammar` for the newer parser, `ExprGrammar` for the older one), with one function per parsing routine, from a token list and a cursor to the outcome;
- a class (`RloxParser.Parser`, `ExprParser.Parser`) whose routines move `current` and are proved to return exactly the grammar's outcome.

A routine that indexes past the end of the token list panics in Rust; here that is the outcome `Panic`. The older parser's folding loops have no `break`. On any token that is neither EOF nor one of the level's operators (a `)`, a literal, an operator of another level) they turn forever; here that outcome is `Spins`.

**Runtime.** The runtime part covers:

- `Objects`: values and their truthiness;
- `Interpreter`: the `Interpret` visitor;
- `Environments`: a class whose scopes are updated in place, linked to the scope that encloses them.

**Numbers.** A number is the bit pattern of an IEEE 754 single (`Float32.F32`). The model defines only:

- negation, which flips the sign bit;
- the constants the interpreter produces;
- the test against zero.

Parsing, arithmetic, comparison and formatting of numbers are parameters.

## Model

| member | source | states |
|---|---|---|
| Tokens.KeywordTable | rlox/src/scanner.rs:236-254 | no reserved word scans as an identifier, a literal or EOF |
| Tokens.KeywordsAreCaseSensitive | rlox/src/scanner.rs:236-254 | keyword lookup is case-sensitive: `While` and `FUN` are identifiers |
| Errors.NatToString | rlox/src/result.rs:20-22 | a line number renders as decimal digits without leading zeros that read back as the number |
| Errors.Display | rlox/src/result.rs:17-25 | a rendered error starts with its stage prefix |
| Errors.DecodeDisplay | rlox/src/result.rs:17-25 | stage, line and message are read back from the rendered text |
| Errors.DisplayInjective | rlox/src/result.rs:17-25 | two different errors never render to the same text |
| Lexer.RunEnd | rlox/src/scanner.rs:190-257 | the end of a character run is the first character outside it |
| Lexer.NewlinesSplit | rlox/src/scanner.rs:152-153 | newline counts over adjacent windows add up |
| Lexer.LexOperator | rlox/src/scanner.rs:118-141 | one turn on `!`, `=`, `<` or `>` consumes input and counts its newlines |
| Lexer.LexString | rlox/src/scanner.rs:167-188 | one turn on a quote keeps the scanning-loop contract |
| Lexer.NumberEnd | rlox/src/scanner.rs:190-222 | a number covers at least its first digit and stays inside the source |
| Lexer.LexNumber | rlox/src/scanner.rs:190-222 | one turn on a digit keeps the scanning-loop contract |
| Lexer.LexWord | rlox/src/scanner.rs:224-257 | one turn on a letter keeps the scanning-loop contract |
| Lexer.LexSymbol | rlox/src/scanner.rs:99-165 | one turn on any other character keeps the scanning-loop contract |
| Lexer.Step | rlox/src/scanner.rs:99-165 | a turn that does not fail consumes at least one character, moves the line by the newlines it consumed and pushes a non-EOF token whose lexeme is the consumed slice |
| Lexer.ThenStep | rlox/src/scanner.rs:89-97 | continuing the loop after a turn gives the same result as before it |
| Lexer.ScanFromFails | rlox/src/scanner.rs:89-97 | the first failing turn ends the scan with its error |
| Lexer.ScanOneToken | rlox/src/scanner.rs:72-97 | a source that is one token scans to that token and EOF |
| Lexer.ScanFails | rlox/src/scanner.rs:72-97 | a scan whose first turn fails returns that error |
| Lexer.ScanFromEndsWithEOF | rlox/src/scanner.rs:89-97 | a successful scan ends with exactly one EOF token |
| Lexer.ScanFromSpans | rlox/src/scanner.rs:89-97 | each lexeme is its source window; windows are ordered and disjoint |
| Lexer.ScanFromLines | rlox/src/scanner.rs:89-165 | each token's line is 1 plus the newlines before its window's end |
| Lexer.ScanFacts | rlox/src/scanner.rs:72-97 | a successful scan: one EOF last, lexemes are ordered disjoint windows, lines count newlines and never decrease |
| Lexer.StepOnDigit | rlox/src/scanner.rs:156 | a digit starts a number |
| Lexer.StepOnAlpha | rlox/src/scanner.rs:157 | a letter or `_` starts an identifier or keyword |
| Lexer.StepOnSymbol | rlox/src/scanner.rs:103-161 | any other character goes to the symbol arms |
| Lexer.MaximalMunch | rlox/src/scanner.rs:118-141 | `!`, `=`, `<`, `>` take a following `=` exactly when one is there, giving that character's own two-character kind (`!=`, `==`, `<=`, `>=`), and otherwise its own one-character kind |
| Lexer.LineComment | rlox/src/scanner.rs:142-150 | `//` skips up to, not including, the next newline or the end |
| Lexer.Whitespace | rlox/src/scanner.rs:152-153 | blanks push nothing; only `\n` advances the line |
| Lexer.StringLiteral | rlox/src/scanner.rs:167-188 | a string's payload lies strictly between the quotes, on the closing quote's line; with no closing quote, "Unterminated string" is reported on the line reached |
| Lexer.NumberEndFacts | rlox/src/scanner.rs:190-222 | a number is a maximal numeral; its dot is taken only when a digit follows |
| Lexer.NumberLiteral | rlox/src/scanner.rs:190-222 | a number token's value is the parse of its lexeme |
| Lexer.Word | rlox/src/scanner.rs:224-257 | a word is maximal and becomes its keyword or `Identifier(text)` |
| Lexer.UnexpectedCharacter | rlox/src/scanner.rs:159-161 | any other character fails the scan with "Unexpected character." on the current line |
| Lexer.DotAtEnd | rlox/src/scanner.rs:89-97 | a final dot gives `Dot`, then EOF carrying the dot's text |
| Lexer.TrailingDot | rlox/src/scanner.rs:190-222 | `1.` scans as a number, a dot, then EOF |
| Lexer.ScanWord | rlox/src/scanner.rs:224-257 | a word pushes one token and the scan continues after it |
| Lexer.ScanPunctuation | rlox/src/scanner.rs:103-117 | a punctuation character pushes its token and the scan continues |
| Lexer.ScanSpace | rlox/src/scanner.rs:152-153 | a space pushes nothing and keeps the line |
| Lexer.NumberEndSlice | rlox/src/scanner.rs:190-222 | a numeral's own text, scanned as a number from its first digit, ends exactly at its end |
| Lexer.RelexNumber | rlox/src/scanner.rs:190-222 | a number's lexeme, scanned on its own, is one number token spanning all of it |
| Lexer.RelexWord | rlox/src/scanner.rs:224-257 | a word's lexeme, scanned on its own, is one token of the same keyword or identifier kind spanning all of it |
| Lexer.RelexString | rlox/src/scanner.rs:167-188 | a string's lexeme, quotes included, scanned on its own, is one string token with the same payload |
| Lexer.RelexSymbol | rlox/src/scanner.rs:103-150 | a punctuation or operator lexeme, scanned on its own, is one token of the same kind |
| Lexer.RelexStep | rlox/src/scanner.rs:99-165 | every token one loop turn pushes, scanned on its own, is one token of the same kind spanning its whole lexeme |
| Lexer.ScanFromRelexes | rlox/src/scanner.rs:89-97 | every token the loop pushes before EOF has that property |
| Lexer.LexemeRoundTrip | rlox/src/scanner.rs:72-97 | the lexeme of any non-EOF token of a successful scan scans on its own to exactly one token with the same kind and lexeme, then EOF |
| Lexer.SpacedOperation | rlox/src/scanner.rs:72-222 | digit, operator, digit, operator, digit, separated by single spaces: three one-digit numbers and the two operators' kinds, in order, all on line 1, then EOF |
| Lexer.ArithmeticScan | rlox/src/scanner.rs:72-222 | `1 + 1 * 2` scans to Number(1), Plus, Number(1), Star, Number(2) and EOF, all on line 1 |
| RloxScanner.Scanner.constructor | rlox/src/scanner.rs:73-79 | a fresh scanner: no tokens, cursor 0, line 1 |
| RloxScanner.Scanner.Scan | rlox/src/scanner.rs:72-83 | `scan` returns exactly `Lexer.Scan` |
| RloxScanner.Scanner.ScanTokens | rlox/src/scanner.rs:89-97 | the loop pushes what `Lexer.ScanFrom` yields, or stops on its error |
| RloxScanner.Scanner.ScanToken | rlox/src/scanner.rs:99-165 | one call does what `Lexer.Step` describes to tokens, cursor and line |
| RloxScanner.Scanner.ProcessString | rlox/src/scanner.rs:167-188 | does what `Lexer.LexString` describes |
| RloxScanner.Scanner.AdvanceToQuote | rlox/src/scanner.rs:168-174 | stops at the next quote or the end, counting the newlines passed |
| RloxScanner.Scanner.ProcessNumber | rlox/src/scanner.rs:190-222 | does what `Lexer.LexNumber` describes |
| RloxScanner.Scanner.ProcessIdentifier | rlox/src/scanner.rs:224-257 | does what `Lexer.LexWord` describes |
| RloxScanner.Scanner.AdvanceWhile | rlox/src/scanner.rs:191-197 | stops at the first character outside the run |
| RloxScanner.Scanner.AddToken | rlox/src/scanner.rs:259-265 | appends one token of the current window and line |
| RloxScanner.Scanner.Advance | rlox/src/scanner.rs:267-270 | returns the current character and moves past it |
| RloxScanner.Scanner.Matches | rlox/src/scanner.rs:288-295 | consumes the next character exactly when it is the expected one |
| Tokenizer.Strip | src/scanner.rs:55-58 | the older tokens are the newer ones without lexemes, in order |
| Tokenizer.Tokenization | src/scanner.rs:83-94 | `tokenize` gives the newer scanner's tokens without lexemes, or the same error re-shaped |
| Tokenizer.ProjectStep | src/scanner.rs:100-108 | one loop turn preserves the outcome, seen through the older tokens |
| Tokenizer.ProjectAtEnd | src/scanner.rs:100-108 | at the end only EOF is pushed, on the current line |
| Tokenizer.ScanPieces | src/scanner.rs:110-179 | a one-line text of words, punctuation and spaces scans to their expected tokens |
| Tokenizer.TokenizePieces | src/scanner.rs:83-94 | such a text tokenizes to its expected tokens and EOF, all on line 1 |
| Tokenizer.ExpressionTokens | src/scanner.rs:333-365 | `foo.bar.baz` gives three identifiers joined by dots, then EOF, on line 1 |
| Tokenizer.FunctionTokens | src/scanner.rs:368-420 | `fun foo(a) { return a; }` gives its keyword, name, punctuation and EOF, on line 1 |
| Tokenizer.TokenizedFacts | src/scanner.rs:100-108 | one EOF last, on 1 plus the newline count; lines never decrease |
| Tokenizer.OperatorFirst | src/scanner.rs:124-151 | a leading `!`, `=`, `<`, `>` gives the two-character kind exactly when `=` follows |
| Tokenizer.TrailingDotTokens | src/scanner.rs:204-236 | `1.` tokenizes as a number, a dot, then EOF |
| Tokenizer.SpacedOperationTokens | src/scanner.rs:83-94 | the spaced digit-operator text of `Lexer.SpacedOperation` tokenizes to the same kinds, all on line 1, then EOF |
| Tokenizer.ArithmeticTokens | src/scanner.rs:83-94 | `1 + 1 * 2` tokenizes to Number(1), Plus, Number(1), Star, Number(2) and EOF, all on line 1 |
| Tokenizer.UnterminatedString | src/scanner.rs:181-202 | an unclosed string fails with "Unterminated string" on the end's line |
| Tokenizer.StringTokens | src/scanner.rs:181-202 | a one-string source gives its text between quotes on the closing quote's line, then EOF |
| Tokenizer.UnexpectedFirst | src/scanner.rs:172-174 | an unexpected first character fails with "Unexpected character." on line 1 |
| Tokenizer.Display | src/scanner.rs:68-72 | a scanner error renders starting with `[line: ` |
| Tokenizer.DecodeDisplay | src/scanner.rs:68-72 | line and message are read back from the rendered error |
| Tokenizer.Scanner.constructor | src/scanner.rs:83-91 | a fresh scanner: no tokens, cursor 0, line 1 |
| Tokenizer.Scanner.Tokenize | src/scanner.rs:83-94 | `tokenize` returns exactly `Tokenization` |
| Tokenizer.Scanner.ScanTokens | src/scanner.rs:100-108 | the loop pushes what the reference scan yields, lexemes dropped |
| Tokenizer.Scanner.ScanToken | src/scanner.rs:110-179 | one call does what `Lexer.Step` describes, lexeme dropped |
| Tokenizer.Scanner.ScanSymbol | src/scanner.rs:113-165 | the symbol arms do what `Lexer.Step` describes |
| Tokenizer.Scanner.ScanOther | src/scanner.rs:167-175 | the fallback arm: number, word or unexpected character |
| Tokenizer.Scanner.ProcessString | src/scanner.rs:181-202 | does what `Lexer.LexString` describes |
| Tokenizer.Scanner.AdvanceToQuote | src/scanner.rs:182-188 | stops at the next quote or the end, counting newlines |
| Tokenizer.Scanner.ProcessNumber | src/scanner.rs:204-236 | does what `Lexer.LexNumber` describes |
| Tokenizer.Scanner.ProcessIdentifier | src/scanner.rs:238-271 | does what `Lexer.LexWord` describes |
| Tokenizer.Scanner.AdvanceWhile | src/scanner.rs:205-211 | stops at the first character outside the run |
| Tokenizer.Scanner.AddToken | src/scanner.rs:273-278 | appends one kind-and-line token |
| Tokenizer.Scanner.Advance | src/scanner.rs:280-283 | returns the current character and moves past it |
| Tokenizer.Scanner.Matches | src/scanner.rs:301-308 | consumes the next character exactly when it is the expected one |
| Ast.OperatorCounts | rlox/src/ast.rs:2-20 | exactly ten binary and two unary operators |
| Ast.AcceptRoutes | rlox/src/ast.rs:47-57 | `accept` consults exactly one handler and passes the node's fields unchanged |
| Ast.AcceptStmtRoutes | rlox/src/ast.rs:72-79 | statement `accept` consults exactly one handler, fields unchanged |
| Ast.Size | rlox/src/ast.rs:31-37 | trees are finite; every child is smaller than its parent |
| Grammar.Finish | rlox/src/parser.rs:86-99 | a routine ending in `consume(...)?` succeeds, fails or panics as the consume does |
| Grammar.Consume | rlox/src/parser.rs:264-270 | success means the current token had the kind, and the cursor moves by one |
| Grammar.ConsumeAdvancesOnlyOnMatch | rlox/src/parser.rs:264-270 | advances exactly on a match; otherwise reports the message on that token's line and stays |
| Grammar.Level | rlox/src/parser.rs:122-214 | every binary operator belongs to one of the four folding levels |
| Grammar.Expression | rlox/src/parser.rs:101-103 | progress is made; a parsed tree respects precedence and associativity, and names only identifiers |
| Grammar.Assignment | rlox/src/parser.rs:105-120 | progress is made; right-associative assignment to a variable only |
| Grammar.Operation | rlox/src/parser.rs:122-214 | each binary level builds left-associative trees of its own and tighter operators |
| Grammar.Fold | rlox/src/parser.rs:125-140 | the level's loop stays in the list and keeps trees well shaped |
| Grammar.Unary | rlox/src/parser.rs:216-231 | prefix operators nest to the right over a primary |
| Grammar.Primary | rlox/src/parser.rs:233-253 | consumes at least one token; a parsed primary is a literal, a variable or a group, shaped at level 0 with identifier-only names |
| Grammar.Declaration | rlox/src/parser.rs:43-51 | a parsed declaration ends right after a `;` |
| Grammar.VarDeclaration | rlox/src/parser.rs:53-77 | needs an identifier name; an optional initializer; a `;` terminator |
| Grammar.Statement | rlox/src/parser.rs:79-84 | a parsed statement ends right after a `;` |
| Grammar.PrintStatement | rlox/src/parser.rs:86-92 | a `print` statement ends right after a `;` |
| Grammar.ExpressionStatement | rlox/src/parser.rs:94-99 | an expression statement ends right after a `;` |
| Grammar.Attempts | rlox/src/parser.rs:27-41 | the declarations tried in turn, each starting where the last stopped |
| Grammar.Met | rlox/src/parser.rs:27-41 | no error is collected exactly when no declaration failed |
| Grammar.ProgramCollects | rlox/src/parser.rs:27-41 | the loop collects exactly the statements and errors of the attempts, in order |
| Grammar.ParseReports | rlox/src/parser.rs:11-25 | `parse` panics exactly when an attempt panics; it succeeds exactly when none failed, else it returns every error in order |
| Grammar.FoldStops | rlox/src/parser.rs:125-140 | a loop stops, unchanged, at a token that is not one of its operators |
| Grammar.LevelPassesThrough | rlox/src/parser.rs:122-214 | a level with no operator of its own returns its operand as is |
| Grammar.UnaryFailureRises | rlox/src/parser.rs:122-214 | a failure of `unary` comes out of every level unchanged |
| Grammar.ExpressionOfOperation | rlox/src/parser.rs:105-120 | an expression not followed by `=` is its equality |
| Grammar.LeftAssociative | rlox/src/parser.rs:170-191 | `a - b - c` parses as `(a - b) - c` |
| Grammar.FactorBindsTighter | rlox/src/parser.rs:170-214 | `a + b * c` parses as `a + (b * c)` |
| Grammar.ExpectedExpression | rlox/src/parser.rs:233-278 | a non-expression token is reported on the next token's line, or panics when it is last |
| Grammar.InvalidAssignmentTarget | rlox/src/parser.rs:105-120 | a bad target is reported after the right-hand side |
| Grammar.NoSynchronisation | rlox/src/parser.rs:27-41 | `1 = 2;` reports the bad target, then fails again at `;`; both errors are kept |
| Grammar.PrintAtEndPanics | rlox/src/parser.rs:233-278 | `print` then EOF panics |
| Grammar.DeclareThenPrint | rlox/src/parser.rs:11-99 | `var x = 1; print x;` parses to a declaration and a print |
| RloxParser.Parser.constructor | rlox/src/parser.rs:12-16 | a fresh parser: cursor 0, no errors |
| RloxParser.Parser.Parse | rlox/src/parser.rs:11-25 | `parse` returns exactly `Grammar.Parse` |
| RloxParser.Parser.Program | rlox/src/parser.rs:27-41 | the loop does what `Grammar.Program` describes |
| RloxParser.Parser.Declaration | rlox/src/parser.rs:43-51 | returns `Grammar.Declaration` and leaves the cursor where it says |
| RloxParser.Parser.VarDeclaration | rlox/src/parser.rs:53-77 | returns `Grammar.VarDeclaration`, cursor included |
| RloxParser.Parser.Statement | rlox/src/parser.rs:79-84 | returns `Grammar.Statement`, cursor included |
| RloxParser.Parser.PrintStatement | rlox/src/parser.rs:86-92 | returns `Grammar.PrintStatement`, cursor included |
| RloxParser.Parser.ExpressionStatement | rlox/src/parser.rs:94-99 | returns `Grammar.ExpressionStatement`, cursor included |
| RloxParser.Parser.Expression | rlox/src/parser.rs:101-103 | returns `Grammar.Expression`, cursor included |
| RloxParser.Parser.Assignment | rlox/src/parser.rs:105-120 | returns `Grammar.Assignment`, cursor included |
| RloxParser.Parser.Equality | rlox/src/parser.rs:122-143 | returns `Grammar.Operation` at level 4 |
| RloxParser.Parser.Comparison | rlox/src/parser.rs:145-168 | returns `Grammar.Operation` at level 3 |
| RloxParser.Parser.Term | rlox/src/parser.rs:170-191 | returns `Grammar.Operation` at level 2 |
| RloxParser.Parser.Factor | rlox/src/parser.rs:193-214 | returns `Grammar.Operation` at level 1 |
| RloxParser.Parser.Operand | rlox/src/parser.rs:122-214 | returns `Grammar.Operand` for the level, cursor included |
| RloxParser.Parser.Loop | rlox/src/parser.rs:125-140 | the loop returns `Grammar.Fold`: it stops at EOF or at a token that is not an operator of the level |
| RloxParser.Parser.Turn | rlox/src/parser.rs:132-136 | one turn consumes the operator and the right operand, and the fold goes on from the new left-nested node |
| RloxParser.Parser.Unary | rlox/src/parser.rs:216-231 | returns `Grammar.Unary`, cursor included |
| RloxParser.Parser.Primary | rlox/src/parser.rs:233-253 | returns `Grammar.Primary`, cursor included |
| RloxParser.Parser.Advance | rlox/src/parser.rs:255-258 | returns the current token and moves past it |
| RloxParser.Parser.Consume | rlox/src/parser.rs:264-270 | returns `Grammar.Consume`, cursor included |
| ExprTree.Display | src/parser.rs:47-56 | a parse error renders starting with `[line: ` |
| ExprTree.DisplayLikeScannerError | src/parser.rs:47-56 | a parse error renders as a scanner error with the same line and message, so both read back |
| ExprTree.ExpectedExpressionDisplay | src/parser.rs:47-56 | "Expected expression" is the message of `ExpectedExpression` |
| ExprGrammar.Consume | src/parser.rs:285-291 | success means the current token had the kind, and the cursor moves by one |
| ExprGrammar.Expression | src/parser.rs:89-91 | a parsed expression always stops on EOF |
| ExprGrammar.Operation | src/parser.rs:94-210 | every level's success stops on EOF |
| ExprGrammar.Fold | src/parser.rs:97-115 | the loop leaves only at EOF; on any other non-operator it spins |
| ExprGrammar.Unary | src/parser.rs:214-235 | consumes at least one token |
| ExprGrammar.Primary | src/parser.rs:239-274 | consumes a token; a group never succeeds |
| ExprGrammar.Parse | src/parser.rs:69-86 | a rejection holds exactly one error |
| ExprGrammar.GroupNeverParses | src/parser.rs:262-270 | when the inner expression of a group returns, which it does only at EOF (as in `( 1` EOF), `consume` fails naming that EOF as the unexpected token |
| ExprGrammar.ClosedGroupDiverges | src/parser.rs:185-210 | the closed group `( 1 )` EOF never returns: `factor`'s loop meets `)` on every turn |
| ExprGrammar.ExpectedExpressionToken | src/parser.rs:239-274 | a non-expression token is reported by naming the token after it, or panics when it is last |
| ExprGrammar.OnlyFactorFolds | src/parser.rs:94-210 | every level parses exactly as `factor` does |
| ExprGrammar.SubtractionSpins | src/parser.rs:157-210 | `1 - 2` never returns |
| ExprGrammar.DivisionFoldsLeft | src/parser.rs:185-210 | `1 / 2 / 3` parses as `(1 / 2) / 3` |
| ExprGrammar.UnaryNestsRight | src/parser.rs:214-235 | `!-x` parses as `!(-x)` |
| ExprParser.Parser.constructor | src/parser.rs:70-74 | a fresh parser: cursor 0, no errors |
| ExprParser.Parser.Parse | src/parser.rs:69-86 | `parse` returns exactly `ExprGrammar.Parse` |
| ExprParser.Parser.Expression | src/parser.rs:89-91 | returns `ExprGrammar.Expression`, cursor included |
| ExprParser.Parser.Equality | src/parser.rs:94-118 | returns `ExprGrammar.Operation` at level 4 |
| ExprParser.Parser.Comparison | src/parser.rs:121-154 | returns `ExprGrammar.Operation` at level 3 |
| ExprParser.Parser.Term | src/parser.rs:157-182 | returns `ExprGrammar.Operation` at level 2 |
| ExprParser.Parser.Factor | src/parser.rs:185-210 | returns `ExprGrammar.Operation` at level 1 |
| ExprParser.Parser.Operand | src/parser.rs:94-210 | returns `ExprGrammar.Operand` for the level |
| ExprParser.Parser.Loop | src/parser.rs:97-115 | the loop returns `ExprGrammar.Fold`, or `Spins` where it would turn forever |
| ExprParser.Parser.Unary | src/parser.rs:214-235 | returns `ExprGrammar.Unary`, cursor included |
| ExprParser.Parser.Primary | src/parser.rs:239-274 | returns `ExprGrammar.Primary`, cursor included |
| ExprParser.Parser.Advance | src/parser.rs:276-279 | returns the current token and moves past it |
| ExprParser.Parser.Consume | src/parser.rs:285-291 | returns `ExprGrammar.Consume`, cursor included |
| Objects.TruthyExactly | rlox/src/object.rs:14-19 | only `nil` and `false` are falsy; `-0` and `""` are truthy |
| Objects.FromLiteral | rlox/src/object.rs:22-32 | each literal becomes the value of the same shape |
| Objects.LiteralRoundTrip | rlox/src/object.rs:22-32 | literals and values correspond one to one, payloads included |
| Objects.FromBool | rlox/src/object.rs:34-41 | a boolean becomes `true`/`false`, truthy exactly when it holds |
| Objects.FromBoolInjective | rlox/src/object.rs:34-41 | distinct booleans give distinct values |
| Objects.DisplayForms | rlox/src/object.rs:43-52 | strings print verbatim; constants print as keywords; the string `nil` prints like `nil` |
| Float32.Neg | rlox/src/interpreter.rs:44-51 | negation keeps the magnitude and flips the sign |
| Float32.NegInvolution | rlox/src/interpreter.rs:44-51 | negating twice gives the number back |
| Interpreter.Not | rlox/src/interpreter.rs:15-39 | `!` gives a boolean, `true` exactly for `false`, `nil`, `±0` and `""` |
| Interpreter.NotVersusTruthiness | rlox/src/interpreter.rs:15-39 | `!` agrees with truthiness on `true`/`false`/`nil` and disagrees on `0`, `-0`, `""` |
| Interpreter.Neg | rlox/src/interpreter.rs:41-52 | `-` always gives a number; on a number it flips the sign |
| Interpreter.NegTwice | rlox/src/interpreter.rs:41-52 | `--x` is `x` for numbers, `1.0` for `true`, `+0.0` for `false`, a negative NaN otherwise |
| Interpreter.ApplyBinary | rlox/src/interpreter.rs:79-162 | defined exactly on two numbers, or two strings with `+`; `+` concatenates; comparisons give booleans |
| Interpreter.ComparisonTruth | rlox/src/interpreter.rs:101-160 | a comparison is truthy exactly when the IEEE relation holds |
| Interpreter.Evaluate | rlox/src/interpreter.rs:73-76 | an expression without variables or assignments always finds a handler |
| Interpreter.VisitBinary | rlox/src/interpreter.rs:79-162 | handled throughout when both operands are |
| Interpreter.VisitUnary | rlox/src/interpreter.rs:164-171 | `!` yields a boolean and `-` a number |
| Interpreter.VisitGrouping | rlox/src/interpreter.rs:172-174 | handled when its inner expression is |
| Interpreter.VisitLiteral | rlox/src/interpreter.rs:176-178 | a literal evaluates to a value that reads back as that literal |
| Interpreter.EvaluateIsAccept | rlox/src/interpreter.rs:73-76 | evaluating is `accept` with the interpreter as visitor |
| Interpreter.LeftBeforeRight | rlox/src/interpreter.rs:79-83 | the left operand is evaluated first; its failure hides the right one's |
| Interpreter.Transparent | rlox/src/interpreter.rs:172-178 | parentheses change nothing; a literal evaluates to its value |
| Interpreter.StringsConcatenateButDoNotCompare | rlox/src/interpreter.rs:84-110 | `"a" + "b"` is `"ab"`; `==` on strings or on `nil` panics |
| Environments.Nearest | rlox/src/environment.rs:36-65 | the innermost scope that binds the name, and none inside it does |
| Environments.AssignThenLookup | rlox/src/environment.rs:36-65 | after assigning a bound name, `get` sees the new value; other names are unaffected |
| Environments.NearestFollowsKeys | rlox/src/environment.rs:36-48 | the scope found depends only on which scopes hold the name |
| Environments.AssignKeepsNames | rlox/src/environment.rs:50-65 | `assign` never creates a binding; an unbound name changes nothing |
| Environments.DefineShadows | rlox/src/environment.rs:32-48 | a definition shadows every enclosing binding |
| Environments.Environment.Scopes | rlox/src/environment.rs:10-13 | the chain of maps, innermost first, one per enclosing level |
| Environments.Environment.Init | rlox/src/environment.rs:25-30 | an empty scope inside the parent, or a root |
| Environments.Environment.New | rlox/src/environment.rs:16-18 | a fresh root scope with no bindings |
| Environments.Environment.From | rlox/src/environment.rs:20-23 | a fresh empty scope enclosed by the parent |
| Environments.Environment.Define | rlox/src/environment.rs:32-34 | binds in this scope only; `get` then sees the value |
| Environments.Environment.Get | rlox/src/environment.rs:36-48 | the innermost binding, or "Undefined variable" on the token's line |
| Environments.Environment.Assign | rlox/src/environment.rs:50-65 | overwrites the innermost binding and returns the value, or fails and changes nothing |

## Left out

- Floating point: `f32` parsing, arithmetic, comparison and `{}` formatting are parameters, not definitions. Only sign-bit negation and the constants `NaN`, `-1.0` and `-0.0` are modelled.
- UTF-8: the source is a sequence of bytes, each written as the `char` of the same code. `from_utf8` on a lexeme, and the error it could raise, are not modelled.
- Sharing: `Rc<RefCell<…>>` scope sharing is modelled as a class whose `enclosing` field is a reference. Reference counting and borrow failures are not modelled.
- Panics: Rust panics (indexing past the token list, `unimplemented!()`) are the outcomes `Panic` and `Unimplemented`, not aborts.
- Non-termination: the older parser's loops that never end are the outcome `Spins`. The model stops at the first turn that changes nothing; it does not turn forever.
- Interpreter.Evaluate: `Interpret` implements `Visitor` with no handler for variables or assignments, so those nodes evaluate to `NoHandler` and the interpreter does not read environments. The source's trait does not match the one in rlox/src/ast.rs, so it does not compile as written.
- Ast: `Expr::Variable` and `Stmt::Var` hold a `String` in rlox/src/ast.rs, but the parser builds them from tokens and builds an `Assign` node that ast.rs lacks. The model uses the parser's shapes.
- The `Object` type and `From<&LiteralValue>` that rlox/src/interpreter.rs repeats from rlox/src/object.rs are modelled once.
- The four folding loops of each parser share one method parameterised by level: `RloxParser.Parser.Loop` for the newer parser, `ExprParser.Parser.Loop` for the older one.
- Lexer.LexemeRoundTrip: the EOF token is excluded. `add_token` gives it the text of the last window (rlox/src/scanner.rs:259-265), which scans as that window's token, or as nothing when the window was a blank or a comment.
- The command-line driver (rlox-cli/src/main.rs), rlox/src/lib.rs, rlox/tests/mod.rs, printing and reading files are not part of this model.

## Findings

| source | as written | input that shows it | evidently intended | confidence | as-written member | corrected member |
|---|---|---|---|---|---|---|
| src/parser.rs:94-210 | the folding loops of `equality`, `comparison`, `term` and `factor` leave only at EOF; a token that is not an operator of the level is never consumed, so the loop turns forever | `1 - 2` followed by EOF: `factor` reads `1`, then sees `-` on every turn | leave the loop on a token that is not an operator of the level, as the newer parser does | not executed | ExprGrammar.SubtractionSpins | Grammar.LeftAssociative |
