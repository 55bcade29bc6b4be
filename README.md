# Lox expression front end, modelled in Dafny

This project models the front end of a tree-walking interpreter for the
expression subset of Lox, as written in Rust. It has five parts:

- **Scanner.** It turns source text into tokens in one left-to-right pass.
  - It reads one- and two-character operators, `//` comments, multi-line string literals, numbers with an optional fractional part, identifiers and the sixteen reserved words.
  - An unexpected character or an unterminated string is reported, and scanning carries on.
  - The scan always ends with an `Eof` token.
- **Token model.** The closed set of token kinds, the literal payload and the token record with its display form.
- **Expression trees.** Binary, grouping, literal and unary nodes, with visitor dispatch.
- **Parser.** Recursive descent over the precedence ladder equality < comparison < addition < multiplication < unary < primary.
  - Each binary level folds to the left in a loop.
  - Parsing stops at the first error.
- **Interpreter.** It evaluates a tree to a number, string, boolean or nil.
  - The right operand is evaluated first.
  - A runtime error names the operator token it arose at.
- **Printer.** It writes a tree in the parenthesised prefix form `(* (- 123) (group 45.67))`.

Each part follows the form of its source:

- **Scanner (`Scanners.Scanner`) and parser (`Parsers.Parser`).** These are classes whose methods move a cursor and push tokens. Each method is proved equal to a pure specification over the input:
  - `Lexical.ScanStep` and `Scanning.ScanFrom` for the scanner;
  - the `Grammar` functions for the parser.
  Lemmas about those specifications state what the source promises.
- **Interpreter and printer.** These are pure recursive functions. The printer's `parenthesize` loop is a method proved against the function `Parenthesized`.

The source shows several half-finished revisions; the model uses one consistent version:

- **One value type.** `Value = Number | Str | Bool | Nil` is both the token payload and the result of evaluation. `Nil` is the source's `TokenLiteral::None`, and `Bool` is the variant the parser, interpreter and printer use.
- **One `Greater` kind.** `token.rs` and the parser spell it `Greather`.
- **Owned strings.** String payloads are plain strings.

Some behaviours of the source are kept as they are, and the model proves them:

- Comparing `nil` with anything, `nil == nil` included, is the runtime error "Invalid expression." (`InterpreterProperties.EqualityOnNil`).
- A string literal prints without quotes, so printing does not determine the tree (`AstPrinterProperties.StringsPrintBare`).
- `parse` returns the first expression and leaves any tokens after it unread (`GrammarProperties.ParseIgnoresRest`).

## Model

| member | source | states |
|---|---|---|
| Lexical.Keyword | src/lox/scanner.rs:8-29 | a word found in the reserved-word table maps to a keyword kind whose spelling is exactly that word |
| Lexical.KeywordTableComplete | src/lox/scanner.rs:8-29 | every one of the sixteen keyword kinds is found in the table under its own spelling |
| Lexical.Until | src/lox/scanner.rs:164-170 | the scan for a closing character stops at its first occurrence, or at the end of the source when there is none |
| Lexical.DigitsEnd | src/lox/scanner.rs:189-191 | a digit run extends to the first non-digit, and every character it covers is a digit |
| Lexical.WordEnd | src/lox/scanner.rs:221-223 | an identifier run extends to the first character that is neither a letter, a digit nor '_' |
| Lexical.ScanStep | src/lox/scanner.rs:64-118 | scanning one lexeme always consumes at least one character and stays within the source |
| Lexical.OperatorStep | src/lox/scanner.rs:76-91 | one operator lexeme, consuming one or two characters; its kinds are stated by `LexicalProperties.TwoCharOperators` |
| Lexical.SlashStep | src/lox/scanner.rs:92-100 | a comment or a `Slash`, consuming at least the '/'; stated case by case by `LexicalProperties.SlashOrComment` |
| Lexical.StringStep | src/lox/scanner.rs:164-182 | a string literal, consuming at least the opening quote; its payload, line and error are stated by `LexicalProperties.StringLiteral` |
| Lexical.NumberEnd | src/lox/scanner.rs:188-201 | the end of a number lies within the source; where it lies is stated by `LexicalProperties.NumberLiteral` |
| Lexical.NumberStep | src/lox/scanner.rs:188-208 | a number literal, consuming at least its first digit; its extent and payload are stated by `LexicalProperties.NumberLiteral` |
| Lexical.WordStep | src/lox/scanner.rs:220-234 | an identifier or keyword, consuming at least its first letter; its kind and payload are stated by `LexicalProperties.IdentifierOrKeyword` |
| LexicalProperties.ScanStepCases | src/lox/scanner.rs:64-118 | the first character of a lexeme decides which rule scans it: operator, slash, string, number or word |
| LexicalProperties.ScanStepLine | src/lox/scanner.rs:101-104 | the line grows by exactly the number of newlines a lexeme consumed |
| LexicalProperties.ScanStepToken | src/lox/scanner.rs:124-127 | a token spells exactly the non-empty text consumed for it, carries the current line, comes with no error and is never `Eof` |
| LexicalProperties.TwoCharOperators | src/lox/scanner.rs:76-91 | '!', '=', '<', '>' give the "-equal" kind and two characters exactly when '=' follows; otherwise the bare kind and one character |
| LexicalProperties.SlashOrComment | src/lox/scanner.rs:92-100 | "//" skips to the next newline (left unconsumed) or to the end and emits nothing; a lone '/' is a `Slash` token |
| LexicalProperties.StringLiteral | src/lox/scanner.rs:164-182 | the payload is the text strictly between the quotes and the line counts its newlines; with no closing quote, "Unterminated string." is reported at the line reached and no token is emitted |
| LexicalProperties.NumberLiteral | src/lox/scanner.rs:188-208 | a number takes a digit run, and a '.' with a second run only when a digit follows the dot at once; its payload is the decimal value of its text |
| LexicalProperties.IdentifierOrKeyword | src/lox/scanner.rs:220-234 | a maximal letter/digit/'_' run is the keyword kind with its text as payload when reserved, otherwise an `Identifier` with no payload |
| LexicalProperties.UnexpectedCharacter | src/lox/scanner.rs:111-114 | any other character is reported as "Unexpected character." at the current line and consumed alone |
| Scanning.ScanFrom | src/lox/scanner.rs:50-62 | the rest of a scan ends with exactly one `Eof` token with an empty lexeme, on the line reached after all remaining newlines |
| Scanning.Scan | src/lox/scanner.rs:50-62 | every scan ends with the one `Eof` token at line 1 plus the source's newlines; the empty source gives just `Eof` at line 1 |
| Scanning.ScanSpans | src/lox/scanner.rs:124-132 | the tokens before `Eof` spell non-empty, successive, non-overlapping slices of the source |
| Scanning.ScanContinuesAfterError | src/lox/scanner.rs:50-58 | after an unexpected character the error is recorded and the scan goes on with the next character |
| Scanners.Scanner.constructor | src/lox/scanner.rs:40-48 | a new scanner holds the source, no tokens, both cursors at 0 and line 1 |
| Scanners.Scanner.ScanTokens | src/lox/scanner.rs:50-62 | appends exactly the tokens and errors of the pure scan from the cursor, ending with `Eof` on the final line |
| Scanners.Scanner.ScanToken | src/lox/scanner.rs:64-118 | moves the cursor and line, and pushes the token and returns the error, exactly as `ScanStep` says |
| Scanners.Scanner.SkipComment | src/lox/scanner.rs:93-96 | advances to the next newline or to the end |
| Scanners.Scanner.AddToken | src/lox/scanner.rs:124-127 | pushes one token spelling the text from `start` to `current` at the current line |
| Scanners.Scanner.Advance | src/lox/scanner.rs:129-132 | returns the character under the cursor and moves the cursor by one |
| Scanners.Scanner.Match | src/lox/scanner.rs:134-146 | consumes the next character exactly when it is the expected one |
| Scanners.Scanner.StringLiteral | src/lox/scanner.rs:164-182 | scans a string literal exactly as `StringStep` says: token, error, line and cursor |
| Scanners.Scanner.SkipStringText | src/lox/scanner.rs:165-170 | stops at the closing quote or the end, counting each newline passed |
| Scanners.Scanner.SkipDigits | src/lox/scanner.rs:189-191 | advances over the whole digit run |
| Scanners.Scanner.SkipNumberText | src/lox/scanner.rs:189-201 | advances to the end of a number, fractional part included |
| Scanners.Scanner.NumberLiteral | src/lox/scanner.rs:188-208 | scans a number exactly as `NumberStep` says |
| Scanners.Scanner.IdentifierLiteral | src/lox/scanner.rs:220-234 | scans a word exactly as `WordStep` says |
| Scanners.Scanner.SkipWord | src/lox/scanner.rs:221-223 | advances over the whole letter/digit/'_' run |
| Decimal.FractionValue | src/lox/scanner.rs:194-203 | the digits after the decimal point are worth between 0 and 1 |
| Decimal.DecimalValue | src/lox/scanner.rs:203 | the exact value of a number lexeme; for a digit run it is the integer the digits spell (`Decimal.DigitRunValue`) |
| Decimal.DigitRunValue | src/lox/scanner.rs:188-203 | a lexeme of digits only, leading zeros included, denotes the integer its digits spell |
| Decimal.WholeDecimalValue | src/lox/scanner.rs:203 | a number lexeme without a fractional part denotes the integer its digits spell |
| Decimal.NatTextRoundTrip | src/lox/token.rs:53-57 | the decimal text of a line number reads back as that number |
| Tokens.Escaped | src/lox/token.rs:28-33 | a string payload with no quote, backslash or control character is shown unchanged |
| Tokens.KindName | src/lox/token.rs:6-26 | the derived debug name of each kind; its place in the display is stated by `Tokens.DisplayStartsWithKindAndLexeme` |
| Tokens.LiteralDebug | src/lox/token.rs:28-33 | the derived debug form of a payload, with string bodies escaped as `Tokens.Escaped` states |
| Tokens.Display | src/lox/token.rs:53-57 | kind, lexeme, payload and line in that order; stated by `Tokens.DisplayStartsWithKindAndLexeme` and `Tokens.DisplayEndsWithLine` |
| Tokens.DisplayStartsWithKindAndLexeme | src/lox/token.rs:53-57 | a token's display starts with the kind's name, a space, the lexeme and a space |
| Tokens.DisplayEndsWithLine | src/lox/token.rs:53-57 | a token's display ends with ", line: " and the line's digits, which read back as the line |
| Ast.Accept | src/lox/expr.rs:33-37 | each node kind calls exactly the matching visit operation with the node's own fields |
| Grammar.ParseExpression | src/lox/parser.rs:29-31 | a parse consumes at least one token, leaves `Eof` in place, fails only with one of the two parser messages, and yields a tree of precedence shape |
| Grammar.ParseBinary | src/lox/parser.rs:33-79 | each binary level yields a tree whose operators of that level sit on the left spine over operands of the tighter level |
| Grammar.BinaryTail | src/lox/parser.rs:36-40 | the left fold keeps the shape of its accumulator and never goes past `Eof` |
| Grammar.ParseUnary | src/lox/parser.rs:81-89 | prefix '!' and '-' nest to the right over a primary |
| Grammar.ParsePrimary | src/lox/parser.rs:91-113 | a primary is a literal or a parenthesised expression of any level |
| Grammar.PrimaryCases | src/lox/parser.rs:92-104 | `false`, `true` and `nil` give the boolean and nil literals, a number or string token gives its own payload, and anything else fails with "Expected expression." at the unconsumed token |
| Grammar.PrimaryGrouping | src/lox/parser.rs:106-110 | '(' parses an expression and then needs ')', else fails with "Expect ')' after expression." at the token found |
| Grammar.Parse | src/lox/parser.rs:18-27 | the first expression parsed, of precedence shape; later tokens are ignored |
| GrammarProperties.ParseIgnoresRest | src/lox/parser.rs:18-27 | a tree of precedence shape followed by tokens that do not continue an operator chain parses to that tree; the rest is left unread |
| GrammarProperties.LiteralRoundTrip | src/lox/parser.rs:92-104 | the token written for any literal parses back to that literal |
| GrammarProperties.GroupingRoundTrip | src/lox/parser.rs:106-110 | a parenthesised tree parses back to the grouping of that tree |
| GrammarProperties.PrimaryRoundTrip | src/lox/parser.rs:91-113 | every primary-shaped tree, written out, parses back to itself |
| GrammarProperties.UnaryRoundTrip | src/lox/parser.rs:81-89 | a chain of unary operators parses back nested to the right |
| GrammarProperties.BinaryRoundTrip | src/lox/parser.rs:33-79 | a tree of a binary level, written out, is read whole before the fold continues: left associativity and precedence |
| GrammarProperties.ParseRoundTrip | src/lox/parser.rs:18-113 | every tree of precedence shape, written out as tokens and ended by `Eof`, parses back to itself |
| Parsers.Parser.constructor | src/lox/parser.rs:11-16 | a new parser holds the tokens with the cursor at the first one |
| Parsers.Parser.Parse | src/lox/parser.rs:18-27 | returns exactly `Grammar.Parse` of the tokens from the cursor on |
| Parsers.Parser.Expression | src/lox/parser.rs:29-31 | agrees with `ParseExpression`: the same tree or error, the cursor just past what it consumed |
| Parsers.Parser.Equality | src/lox/parser.rs:33-43 | agrees with `ParseBinary` at level 0, the loop folding `!=`/`==` to the left |
| Parsers.Parser.Comparison | src/lox/parser.rs:45-55 | agrees with `ParseBinary` at level 1 (`>`, `>=`, `<`, `<=`) |
| Parsers.Parser.Addition | src/lox/parser.rs:57-67 | agrees with `ParseBinary` at level 2 (`-`, `+`) |
| Parsers.Parser.Multiplication | src/lox/parser.rs:69-79 | agrees with `ParseBinary` at level 3 (`/`, `*`) |
| Parsers.Parser.Unary | src/lox/parser.rs:81-89 | agrees with `ParseUnary` |
| Parsers.Parser.Primary | src/lox/parser.rs:91-113 | agrees with `ParsePrimary` |
| Parsers.Parser.Consume | src/lox/parser.rs:115-121 | consumes a token of the wanted kind, or fails with the message at the current token without moving |
| Parsers.Parser.Match | src/lox/parser.rs:147-156 | consumes at most one token, exactly when its kind is one of those given and it is not `Eof` |
| Parsers.Parser.Check | src/lox/parser.rs:158-164 | true exactly when the current token has the kind and is not `Eof` |
| Parsers.Parser.Advance | src/lox/parser.rs:166-172 | moves past the current token unless it is `Eof`, and returns the token just passed |
| Parsers.Parser.Peek | src/lox/parser.rs:178-180 | the current token, the first of those remaining |
| Interpreter.IsTruthy | src/lox/interpreter.rs:14-20 | nil and false are falsy; every other value is truthy |
| Interpreter.StrLessIrreflexive | src/lox/interpreter.rs:58-61 | no string sorts before itself |
| Interpreter.StrLessTransitive | src/lox/interpreter.rs:58-61 | string order is transitive |
| Interpreter.StrLessTrichotomy | src/lox/interpreter.rs:58-61 | of two different strings exactly one sorts first |
| Interpreter.StrLessEqIsNotGreater | src/lox/interpreter.rs:58-61 | "at most" on strings is the negation of "after" |
| Interpreter.Divide | src/lox/interpreter.rs:44 | the quotient times a non-zero divisor gives back the dividend |
| Interpreter.NumberOp | src/lox/interpreter.rs:40-54 | two numbers accept exactly `- + / *` and the six comparisons; any other operator is "Invalid operator for number type." at the operator; the values are stated by `InterpreterProperties.ArithmeticEvaluates` and `InterpreterProperties.NumberComparisons` |
| Interpreter.StringOp | src/lox/interpreter.rs:55-66 | two strings accept exactly `+` and the six comparisons; any other operator is "Invalid operator for string type."; the values are stated by `InterpreterProperties.StringConcatenation` and `InterpreterProperties.StringComparisons` |
| Interpreter.BoolOp | src/lox/interpreter.rs:67-73 | two booleans accept exactly `==` and `!=`; any other operator is "Invalid operator for boolean type." |
| Interpreter.BinaryOp | src/lox/interpreter.rs:39-75 | a binary operation succeeds exactly for two numbers, two strings or two booleans with an operator defined there; any other pairing is "Invalid expression."; every error names the operator |
| Interpreter.UnaryOp | src/lox/interpreter.rs:89-98 | '!' negates truthiness; '-' negates a number and otherwise fails with "Operand must be a number."; any other operator gives nil |
| Interpreter.Evaluate | src/lox/interpreter.rs:10-12 | evaluation is dispatch to the four visit operations (`InterpreterProperties.EvaluateIsAccept`); its outcomes are stated by the lemmas below |
| Interpreter.VisitBinary | src/lox/interpreter.rs:36-76 | right operand, then left, then the operator (`InterpreterProperties.RightOperandFirst`) |
| Interpreter.VisitGrouping | src/lox/interpreter.rs:78-80 | the inner expression's outcome (`InterpreterProperties.GroupingAndLiteral`) |
| Interpreter.VisitLiteral | src/lox/interpreter.rs:82-84 | the literal's own value (`InterpreterProperties.GroupingAndLiteral`) |
| Interpreter.VisitUnary | src/lox/interpreter.rs:86-99 | the operand's error, or `UnaryOp` on its value (`InterpreterProperties.DoubleNegation`, `InterpreterProperties.ErrorAtOperator`) |
| InterpreterProperties.EvaluateIsAccept | src/lox/interpreter.rs:10-12 | evaluating a tree is accepting the interpreter's visitor |
| InterpreterProperties.RightOperandFirst | src/lox/interpreter.rs:36-38 | a binary node returns its right operand's error first, the left one's only when the right succeeds, and otherwise applies the operator |
| InterpreterProperties.GroupingAndLiteral | src/lox/interpreter.rs:78-84 | a grouping evaluates to its inner outcome and a literal to its own value |
| InterpreterProperties.StringConcatenation | src/lox/interpreter.rs:57 | '+' on two strings gives the left string followed by the right one |
| InterpreterProperties.NumberComparisons | src/lox/interpreter.rs:46-49 | '<', '<=', '>' and '>=' on two numbers are the orderings of the reals, left operand first |
| InterpreterProperties.StringComparisons | src/lox/interpreter.rs:58-61 | '<' and '<=' ask whether the left string sorts first (or equals), '>' and '>=' whether the right one does |
| InterpreterProperties.ErrorAtOperator | src/lox/interpreter.rs:36-99 | every runtime error is reported at an operator token of the tree |
| InterpreterProperties.NoOperatorNoError | src/lox/interpreter.rs:78-84 | a tree without operators always evaluates |
| InterpreterProperties.ArithmeticEvaluates | src/lox/interpreter.rs:40-45 | a tree of number literals, `+ - * /`, unary '-' and grouping never fails, and evaluates to its arithmetic value |
| InterpreterProperties.DoubleNegation | src/lox/interpreter.rs:86-90 | `!!e` is the truthiness of `e`, or `e`'s error |
| InterpreterProperties.ComparisonsComplement | src/lox/interpreter.rs:46-61 | on two numbers or two strings `>=` is the negation of `<`, and `<=` that of `>` |
| InterpreterProperties.GreaterIsSwappedLess | src/lox/interpreter.rs:46-60 | `a > b` is `b < a` for two numbers or two strings |
| InterpreterProperties.StringLessIsStrict | src/lox/interpreter.rs:58-60 | `<` on strings is false on equal strings and asymmetric on different ones |
| InterpreterProperties.EqualityNegation | src/lox/interpreter.rs:39-75 | `==` and `!=` are defined on the same pairs and give opposite booleans there; `==` is true exactly on equal values |
| InterpreterProperties.EqualityOnNil | src/lox/interpreter.rs:74 | any non-nil value equals itself; a comparison involving nil is "Invalid expression." |
| AstPrinter.Parenthesize | src/lox/ast_printer.rs:11-20 | "(" and the name, then a space and each tree's printed form in order, then ")" |
| AstPrinter.Print | src/lox/ast_printer.rs:7-9 | printing is dispatch to the four visit operations (`AstPrinterProperties.PrintIsAccept`); the forms are stated by `AstPrinterProperties.PrintForms` |
| AstPrinter.VisitBinary | src/lox/ast_printer.rs:24-26 | "(op left right)" (`AstPrinterProperties.PrintForms`) |
| AstPrinter.VisitGrouping | src/lox/ast_printer.rs:28-30 | "(group inner)" (`AstPrinterProperties.PrintForms`) |
| AstPrinter.VisitLiteral | src/lox/ast_printer.rs:32-39 | strings bare, numbers by `show`, booleans "true"/"false", nil "nil" (`AstPrinterProperties.PrintForms`) |
| AstPrinter.VisitUnary | src/lox/ast_printer.rs:41-43 | "(op operand)" (`AstPrinterProperties.PrintForms`) |
| AstPrinterProperties.PrintIsAccept | src/lox/ast_printer.rs:7-9 | printing a tree is accepting the printer's visitor |
| AstPrinterProperties.ParenthesizedForm | src/lox/ast_printer.rs:11-20 | with one part the text is "(name a)", with two "(name a b)" |
| AstPrinterProperties.PrintForms | src/lox/ast_printer.rs:24-43 | binary "(op left right)", grouping "(group inner)", unary "(op operand)"; strings bare, booleans "true"/"false", nil "nil", numbers their text |
| AstPrinterProperties.PrintExample | src/lib.rs:15-26 | the tree of `-123 * (45.67)` prints as "(* (- 123) (group 45.67))" |
| AstPrinterProperties.StringsPrintBare | src/lox/ast_printer.rs:32-39 | a string literal prints exactly as nil, a boolean or a number with the same text does |
| AstPrinterProperties.Balanced | src/lox/ast_printer.rs:11-43 | when no operator lexeme or literal text holds a parenthesis, the printed form has as many '(' as ')' |

## Left out

- The driver (`src/lox/mod.rs`, `src/main.rs`) is not part of this model: reading files and standard input, the error flag, exit codes and the formatting of reports. The error callbacks of `scan_tokens` and `parse` become returned values: the scanner's `errors` sequence and the parser's `Err` result.
- Interpreter.Interpret: the `println!` of the value is not modelled; `Interpret` returns what it would print or report, and has no row of its own.
- Scanners.Scanner.IsAtEnd, Scanners.Scanner.Peek, Scanners.Scanner.PeekNext, Parsers.Parser.IsAtEnd and Parsers.Parser.Previous are one-line accessors. They have no row of their own. What they do is stated by the contracts of the methods that use them: `ScanToken`, the `Skip` loops, `Advance`, `Match` and `Consume`.
- Numbers are exact reals, not 64-bit floats. Rounding, infinities and NaN are not modelled.
- Interpreter.Divide: a zero divisor gives the placeholder 0.0, where IEEE division gives an infinity or NaN.
- Decimal.DecimalValue takes the exact decimal value of a number lexeme in place of `parse::<f64>`.
- AstPrinter.VisitLiteral: the text of a number (`to_string`) is a parameter `show`. Likewise, the token display's debug text of a float is the parameter `debugNumber`.
- Tokens.Escaped models the debug escaping of quote, backslash, newline, carriage return, tab and NUL only; other control and Unicode escapes are left out.
- The source is a sequence of characters indexed one character at a time. The source slices bytes and would panic on a multi-byte character; that is not modelled. String order compares characters by code point, which agrees with byte order for such text.
- The commented-out `synchronize` in the parser is dead code and is left out.
- `Rc`, `Box`, lifetimes and trait objects are left out. Trees are an inductive datatype, and each visitor is a record of four functions (`Ast.Visitor`).
- `Token::new` and the expression node constructors store their arguments unchanged. They are the datatype constructors here and need no member of their own.
- The reserved-word table is a constant map instead of a lazily built hash map.
- Scanners.Scanner: the comment, string, number and word loops of the source sit inline in `scan_token`, `string`, `number` and `identifier`; here each loop is its own small method (`SkipComment`, `SkipStringText`, `SkipDigits`, `SkipNumberText`, `SkipWord`), called at the same point.
- The unreachable `_ => None` arm of `visit_unary` is kept as `UnaryOp`'s last case. The parser only builds unary nodes for '!' and '-', so the arm is never taken.
