# rox front end in Dafny

This project models the front end of rox, a Lox interpreter written in Rust. The front end has four parts.

- **The token model** (`src/token.rs`, module `Tokens` in `tokens.dfy`). It holds the 39 token kinds, the two literal kinds, the token record, and the two text forms of a literal and a token.
- **The scanner** (`src/lexer.rs`, module `Lexer` in `lexer.dfy`). `Lexer` is a class whose cursor fields `start`, `current` and `line`, `errored` flag and `tokens` list its methods update as the source does.
- **The expression tree and its printers** (`src/ast.rs`, module `Ast` in `ast.dfy`). The tree is a datatype. The visitor is a record of four functions, and `accept` dispatches on the variant. The two `parenthesize` loops are methods.
- **The precedence-climbing parser** (`src/parser.rs`, module `Parser` in `parser.dfy`). `Parser` is a class over a token list with a forward-only `current` cursor.

`decimal.dfy` (module `Decimal`) describes the text of number literals and the value it denotes. `frontend.dfy` (module `Frontend`) connects the scanner to the parser.

The scanner and the parser are written twice: once as pure reference definitions over values, once as the source's imperative methods.
- The scanner's reference definitions are `ScanToken`, `ScanFrom` and `Scan`.
- The parser's reference definitions are `ParseExpression`, `ParseBinary`, `ParseOperand`, `BinaryRest`, `ParseUnary` and `ParsePrimary`.
- Each method's postcondition says it computes its reference definition and where it leaves the cursor.
- The scanner's and parser's promises are proved as lemmas about the reference definitions.

Main results:
- A scan ends in exactly one `Eof` token, on the line after the source's last newline. Every other token covers exactly its source text and carries the literal its kind calls for.
- The parser builds only trees that respect precedence and left associativity (`ExpressionSound`). Written out as tokens, every such tree is parsed back to itself (`ParseFlatten`).
- Both printers follow from `accept` with the source's visitors. The printer test's expected strings are derived as lemmas (`TestPrints`).
- The tokens of a successful scan are always a valid parser input (`ScannedTokensParse`).

Where the source does not compile or is unfinished, the model follows what the code evidently means:

- `lex_tokens` pushes `TokenType::EOF` (src/lexer.rs:56), but the variant is called `Eof` (src/token.rs:53). The model uses `Eof`.
- `primary` writes `Expr::Grouping(expr)` (src/parser.rs:115), but the variant is struct-shaped (src/ast.rs:14-16). The model builds `Grouping(expr)`.
- `consume` is `todo!()` (src/parser.rs:158-160). It is modelled as stepping over the expected token, or failing with `ExpectedRightParen` at the token where the `)` should be.
- `primary` has no value after its `(` branch, and no branch for other tokens (src/parser.rs:112-116). A token that starts no expression gives `ExpectedExpression` at that token.
- A string that is never closed makes `add_token` slice past the end of the source, and the program panics (src/lexer.rs:177-185, 237).
  - The model makes this an outcome. `AddToken` returns false, and `LexTokens` returns `UnterminatedString` with the line reached.
  - The reference definition stops the same way: `ScanString` gives `Unterminated`, and `ScanFrom` gives `UnterminatedString`.
- `false`, `true` and `nil` become the string literals `"false"`, `"true"` and `"null"`, as the code writes them (src/parser.rs:98-106).
- The four binary levels `equality`, `comparison`, `term` and `factor` have one shape in the source. They are one method, `Parser.Parser.Binary`, over a `Level`. Its loop is `Parser.Parser.Rest`. `Parser.Parser.Operand` picks the next tighter level, or `unary` below `factor`.
- A number literal keeps the text it was scanned from, a `NumberText`. Its value is `Num / 10^Scale` (module `Decimal`).
  - f64's `to_string` is modelled as `Display`, the canonical decimal text of the same value.
  - `{:?}` is modelled as `DebugNumber`: `Display` with `.0` added when there is no fraction.
- The `phf` keyword map is a Dafny `map` over the 16 reserved words.
- `lex_token`'s `match` on the character is an if-chain over character classes. The classes are single-character punctuation, the four `=`-extended operators, `/`, blanks, newline, quote, digit, letter and anything else.
- The parser's input must be `WellFormed`: non-empty, ending in `Eof`, with every Number and String token carrying its literal. The source relies on the first two for its indexing and unwraps the literal in `primary`.
- `Parser.Parser.Advance` additionally requires that it not be called at cursor 0 on `Eof`. There the source's `previous` would index `tokens[-1]`. The parser never makes that call.

## Model

| member | source | states |
|---|---|---|
| Tokens.NewToken | src/token.rs:85-94 | the token stores its kind, lexeme, literal and line unchanged |
| Tokens.LiteralTextMeaning | src/token.rs:70-83 | a string literal displays as its text with no quotes; a number displays as canonical number text with the same value as the scanned text |
| Tokens.KindCounts | src/token.rs:4-54 | the kinds are 11 single-character, 8 comparison, 3 literal and 16 keyword kinds plus Eof, 39 in all, pairwise distinct |
| Tokens.KindsAreClosed | src/token.rs:4-54 | every token kind is one of the 39 listed |
| Tokens.KindIndexInverse | src/token.rs:4-54 | each kind has a position below 39 in the list of all kinds, and that position gives the kind back |
| Tokens.KindName | src/token.rs:4-54 | the `{:?}` name of a kind is non-empty and has no space |
| Tokens.KindFromName | src/token.rs:4-54 | a kind read back from a name has that name |
| Tokens.KindNameRoundTrip | src/token.rs:4-54 | distinct kinds have distinct names: reading a kind's name gives that kind back |
| Tokens.DebugNumber | src/token.rs:98 | the `{:?}` text of a number always contains a '.' |
| Tokens.TokenTextKind | src/token.rs:96-100 | a token's text starts with its kind's name and one space, and the kind can be read back from it |
| Tokens.EscapeRoundTrip | src/token.rs:98 | the `{:?}` escaping of an ASCII string literal can be undone: unescaping gives the original text |
| Decimal.Join | src/lexer.rs:188-207 | digits, optionally '.' and digits, form number text whose integer and fraction parts are those digits |
| Decimal.DisplayKeepsValue | src/token.rs:73 | the displayed number text denotes the same value as the scanned text |
| Decimal.DisplayIsCanonical | src/token.rs:73 | the displayed text has no redundant leading zero, no trailing fraction zero and no empty fraction |
| Decimal.DisplayOfCanonical | src/token.rs:73 | canonical number text displays as itself |
| Decimal.DisplayIdempotent | src/token.rs:73 | displaying displayed text changes nothing |
| Lexer.KeywordsAreKeywords | src/lexer.rs:4-21 | each of the 16 reserved words maps to a keyword kind |
| Lexer.WordKindIsWord | src/lexer.rs:209-219 | an identifier-shaped word never scans as Eof, Number or String |
| Lexer.RunEnd | src/lexer.rs:170-175 | the end of the longest run of characters with a property: every character before it has the property, and the next one does not or the source ends |
| Lexer.NumberEnd | src/lexer.rs:188-199 | a number takes its run of digits and at most one '.'-and-digits fraction; it takes a '.' only when a digit follows it; it ends on a character that is not a digit, or at the end of the source; and when it holds no '.', a '.' and digit after it would have been taken |
| Lexer.ScanToken | src/lexer.rs:65-137 | one scan step that produces a token or skip consumes at least one character and stays within the source |
| Lexer.ScanTokenGood | src/lexer.rs:65-137 | each step consumes at least one character; the line advances by the newlines consumed; an emitted token's lexeme is exactly the consumed text, on the step's line, never Eof; a Number carries its own text, a String the text between its quotes, and every other kind no literal; a step that reports an unexpected character emits nothing and consumes only that character |
| Lexer.OperatorStep | src/lexer.rs:78-109 | `!`, `=`, `>` and `<` take one character, or two when `=` follows, and emit the one-character or the two-character kind accordingly |
| Lexer.SlashStep | src/lexer.rs:110-118 | `//` skips up to the next newline, or to the end of the source, with no token, consuming no newline and leaving the line unchanged; a `/` not followed by `/` emits Slash, one character wide |
| Lexer.StringStep | src/lexer.rs:169-186 | a string step is a good step, and a closed string emits one String token, whose literal is the text strictly between the quotes, on the line where it ends |
| Lexer.StringEnds | src/lexer.rs:169-186 | a string ends at the first quote after the opening one, and is unterminated exactly when no quote follows |
| Lexer.NumberStep | src/lexer.rs:188-207 | a number emits one Number token that carries its own text and ends where the digits, and a fraction only after a '.' and a digit, end |
| Lexer.WordStep | src/lexer.rs:209-219 | an identifier takes the longest alphanumeric run and is looked up in the keyword table |
| Lexer.NumberEndIsNumberText | src/lexer.rs:188-207 | the text a number scan takes is digits, optionally '.' and digits, so `parse().unwrap()` cannot fail |
| Lexer.ScanFromShape | src/lexer.rs:46-63 | from any position the scan yields good tokens in line order, then one Eof on the line reached at the end of the source |
| Lexer.ScanShape | src/lexer.rs:46-63 | a whole scan's tokens are never empty; the last is the only Eof, with empty lexeme, on line 1 plus the number of newlines |
| Lexer.UnexpectedFrom | src/lexer.rs:125-134 | at any position, an unexpected character emits no token, sets the error flag, and the scan goes on from the next character on the same line |
| Lexer.ScanUnexpected | src/lexer.rs:125-134 | a source of one unexpected character gives only Eof, with the error flag set |
| Lexer.PunctuationStep | src/lexer.rs:68-77 | at any position, a punctuation character emits its kind with that one character as lexeme and no literal, and consumes exactly that character |
| Lexer.ScanPunctuation | src/lexer.rs:68-77 | a punctuation character alone scans to its token, then Eof |
| Lexer.ScanOperatorPair | src/lexer.rs:78-109 | `!`, `=`, `>` and `<` alone give the one-character kind; followed by `=` they give one two-character token |
| Lexer.ScanWordAlone | src/lexer.rs:209-219 | an identifier-shaped source gives one token, its keyword kind or Identifier, then Eof |
| Lexer.ScanNumberAlone | src/lexer.rs:188-207 | number text scans to one Number token carrying that text, then Eof |
| Lexer.ScanNumberDot | src/lexer.rs:193 | a number followed by a '.' and nothing more gives the number and a separate Dot |
| Lexer.ScanComment | src/lexer.rs:110-118 | a line comment yields only Eof |
| Lexer.ScanStringLiteral | src/lexer.rs:169-186 | a quoted text gives one String token whose literal is the text between the quotes, on the line it ends on |
| Lexer.ScanUnterminated | src/lexer.rs:177-185 | a quote that is never closed ends the scan as an unterminated string |
| Lexer.BlankStep | src/lexer.rs:120-121 | at any position, a space, tab, carriage return or newline emits no token and consumes one character; the line goes up by one exactly when it is a newline |
| Lexer.ScanBlanks | src/lexer.rs:120-121 | spaces, tabs, carriage returns and newlines yield only Eof, whose line is 1 plus the number of newlines |
| Lexer.Lexer.constructor | src/lexer.rs:34-44 | a new lexer is at position 0, line 1, with no tokens and no error |
| Lexer.Lexer.Advance | src/lexer.rs:153-159 | moves the cursor by one and returns the character it passed, or none past the end |
| Lexer.Lexer.MatchNext | src/lexer.rs:139-151 | consumes the next character exactly when it is the expected one, never at the end |
| Lexer.Lexer.AddToken | src/lexer.rs:236-240 | appends a token whose lexeme is the source from start to current, on the current line; fails where that slice runs past the end of the source |
| Lexer.Lexer.LexString | src/lexer.rs:169-186 | scans a string literal as ScanString does, including the unterminated case |
| Lexer.Lexer.SkipToQuote | src/lexer.rs:170-175 | stops on the next quote or at the end, having counted the newlines passed |
| Lexer.Lexer.LexNumber | src/lexer.rs:188-207 | scans a number as ScanNumber does and appends its token |
| Lexer.Lexer.SkipNumber | src/lexer.rs:189-199 | takes the digit run, and a fraction only when a '.' is followed by a digit |
| Lexer.Lexer.SkipDigits | src/lexer.rs:189-191 | stops on the first non-digit |
| Lexer.Lexer.LexIdentifier | src/lexer.rs:209-219 | scans an identifier as ScanWord does and appends its token |
| Lexer.Lexer.LexComment | src/lexer.rs:112-115 | skips up to, not including, the next newline |
| Lexer.Lexer.LexToken | src/lexer.rs:65-137 | one step updates the cursor, line, error flag and tokens exactly as ScanToken says, or reports the unterminated string |
| Lexer.Lexer.LexTokens | src/lexer.rs:46-63 | the tokens so far followed by the scan of the rest of the source, ended by Eof |
| Lexer.Lex | src/lexer.rs:34-63 | a fresh lexer's lex_tokens computes Scan |
| Ast.AcceptUsesOwnMethod | src/ast.rs:27-40 | accept's result depends only on the visitor method of the node's own variant |
| Ast.AcceptPassesFields | src/ast.rs:27-40 | accept hands that method the node's own fields unchanged |
| Ast.AstPrintIsAccept | src/ast.rs:42-71 | AstPrinter's print, accept with its visitor, is the prefix form: "(" + lexeme + " " + each operand + ")", "group" for groups, and literal text for literals |
| Ast.AstParenthesize | src/ast.rs:73-86 | the loop's text is "(", the name, a space and the text of each child in order, then ")" |
| Ast.RpnPrintIsAccept | src/ast.rs:104-120 | RpnPrinter's print, accept with its visitor, is the reverse Polish form |
| Ast.AstAcceptRecursive | src/ast.rs:55-86 | accept with AstPrinter on an inner node is parenthesize of its name and of accept, with the same printer, on each child |
| Ast.RpnAcceptRecursive | src/ast.rs:90-120 | accept with RpnPrinter on an inner node is parenthesize of its name and of accept, with the same printer, on each child |
| Ast.RpnParenthesize | src/ast.rs:90-102 | the loop's text is each child's text followed by one space, in order, then the name |
| Ast.LiteralTextBoth | src/ast.rs:64-66 | a literal prints as its display text, the same in both printers |
| Ast.RpnIsPostOrder | src/ast.rs:90-120 | the reverse Polish text is the post-order walk of the tree with single spaces between words |
| Ast.PrintersSameCharacters | src/ast.rs:55-120 | the two printers write the same characters, except that the prefix form adds one pair of parentheses per inner node |
| Ast.TestPrints | src/ast.rs:122-140 | for `-123 * (45.67)` the prefix printer gives `(* (- 123) (group 45.67))` and the reverse Polish printer gives `123 - 45.67 group *` |
| Ast.TestPrintsWith | src/ast.rs:122-140 | the test tree prints as expected for any literals that display as "123" and "45.67", such as string literals |
| Parser.Tighter | src/parser.rs:19-82 | each binary level's operands are parsed at the level one rank tighter |
| Parser.BinaryRankOf | src/parser.rs:19-82 | an operator belongs to a level exactly when its precedence is that level's rank |
| Parser.ParseExpression | src/parser.rs:15-17 | an expression parse moves the cursor forward and stays on a token |
| Parser.ParseBinary | src/parser.rs:19-82 | a binary level's parse moves the cursor forward and stays on a token |
| Parser.ParseUnary | src/parser.rs:84-95 | a unary parse moves the cursor forward and stays on a token |
| Parser.ParsePrimary | src/parser.rs:97-117 | a primary parse moves the cursor forward and stays on a token |
| Parser.BinaryRest | src/parser.rs:25-31 | a level's loop never moves the cursor back; an error lies past the operator it stopped after |
| Parser.ExpressionSound | src/parser.rs:15-117 | every parsed tree respects precedence and left associativity: a binary node's right operand binds tighter than its operator, while its left operand may hold operators of the same level, so a chain of one level's operators folds to the left; every error stands on a token that starts no expression or where a ')' is missing |
| Parser.ParseFlatten | src/parser.rs:15-117 | the tokens of any tree that respects precedence, followed by Eof, are a valid input and parse back to that tree |
| Parser.NoStartExpression | src/parser.rs:97-117 | an expression fails at its first token exactly when that token can start no expression |
| Parser.EmptyInput | src/parser.rs:97-117 | an input holding only Eof fails at its first token |
| Parser.SubtractionLeansLeft | src/parser.rs:52-66 | `a - b - c` parses as `(a - b) - c` |
| Parser.ProductBindsTighter | src/parser.rs:52-82 | `a + b * c` parses as `a + (b * c)` |
| Parser.ComparisonBindsTighter | src/parser.rs:19-50 | `a == b < c` parses as `a == (b < c)` |
| Parser.GroupOverridesPrecedence | src/parser.rs:112-116 | `(a == b) < c` keeps the group as the left operand of `<` |
| Parser.UnaryNests | src/parser.rs:84-95 | `- - a` and `! - a` nest to the right |
| Parser.UnaryLiteral | src/parser.rs:108-110 | any Number or String token, at any position of a well-formed token list, becomes a literal node carrying that token's own literal, consuming that one token |
| Parser.KeywordLiterals | src/parser.rs:98-106 | `false`, `true` and `nil` become the string literals "false", "true" and "null" |
| Parser.FailureLifts | src/parser.rs:19-95 | an error in the leading unary expression is the result of every level |
| Parser.UnclosedGroup | src/parser.rs:112-116 | `(a` followed by Eof fails with a missing ')' at the Eof |
| Parser.StrayParen | src/parser.rs:97-117 | a leading `)` fails where it stands |
| Parser.Parser.constructor | src/parser.rs:11-13 | a new parser has its cursor on the first token |
| Parser.Parser.Check | src/parser.rs:151-156 | true exactly when the next token has the kind and is not Eof, whatever the kind asked for |
| Parser.Parser.Advance | src/parser.rs:144-149 | steps over the next token unless it is Eof, never past the last token, and returns the token before the cursor |
| Parser.Parser.MatchNext | src/parser.rs:119-128 | advances by exactly one when the next token is not Eof and has one of the kinds, and otherwise leaves the cursor unchanged |
| Parser.Parser.Consume | src/parser.rs:158-160 | steps over a token of the expected kind, or reports that it is missing without moving |
| Parser.Parser.Expression | src/parser.rs:15-17 | computes ParseExpression and leaves the cursor after the expression or on the offending token |
| Parser.Parser.Binary | src/parser.rs:19-82 | equality, comparison, term and factor compute ParseBinary at their level, with the cursor left at the result's position |
| Parser.Parser.Rest | src/parser.rs:25-33 | the level's while loop computes BinaryRest from the expression parsed so far |
| Parser.Parser.Operand | src/parser.rs:20-29 | parses an operand at the next tighter level, or a unary expression under factor |
| Parser.Parser.Unary | src/parser.rs:84-95 | computes ParseUnary, with the cursor left at the result's position |
| Parser.Parser.Primary | src/parser.rs:97-117 | computes ParsePrimary, with the cursor left at the result's position |
| Frontend.ScannedTokensParse | src/parser.rs:11-17 | the tokens of a scan that ends normally are a valid parser input, and whatever is parsed from them is sound |
| Frontend.NumberThroughFrontend | src/lexer.rs:188-207 | number text scans to one token, parses to its literal, and both printers show the canonical text of its value |

The cursor helpers `AtEnd`, `Peek` and `PeekNext` of `Lexer.Lexer` (src/lexer.rs:161-167, 221-226, 242-244) are functions read by the methods above. So are `AtEnd`, `Peek` and `Previous` of `Parser.Parser` (src/parser.rs:132-142). None of them has a contract of its own.

## Left out

- src/main.rs is not part of this model: argument handling, the REPL, file reading and printing are I/O.
- The diagnostic messages written with `eprintln!` (src/lexer.rs:131, 178) are left out. An unexpected character is modelled as the `errored` flag, and an unterminated string as the `UnterminatedString` outcome.
- f64 arithmetic is left out.
  - A number keeps its exact decimal value, so parsing it never rounds.
  - Parsing into an f64 rounds to the nearest double. This affects long fractions and integers above 2^53, and the model does not round.
  - `Display` (`to_string`) never writes an exponent, so the plain decimal form it is modelled by is the right form.
  - Tokens.DebugNumber: `{:?}` writes an exponent for values of 1e16 and up and for non-zero values below 1e-4. The model writes those in plain decimal form too.
- Lexer.IsAlpha: Unicode letters are left out. `is_alphabetic` is modelled as ASCII letters and `_`, and `is_digit(10)` as '0' to '9'.
- Source positions are character positions. The source mixes byte offsets (`len`, slicing) with character positions (`chars().nth`). The two agree on ASCII text only, which this model does not require.
- Tokens.EscapeRoundTrip: covers ASCII text only. Rust's `{:?}` escaping of non-ASCII characters is not modelled.
- Cloning, `Box` and the `&dyn Visitor` trait objects are ownership detail. The visitor is a record of functions.
- The message text passed to `consume` is left out. The missing-')' error only records where it happened.
