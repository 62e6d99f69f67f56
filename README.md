# jlox front end in Dafny

This project models the front end of `jlox`, a Rust port of the Lox tree-walking
interpreter. Two stages are modelled:

- The **scanner** (`jlox/src/scanner.rs`) turns source text into tokens. Each token
  has a kind, a lexeme, an optional string or number payload and a line number.
- The **recursive-descent parser** (`jlox/src/parser.rs`) turns the tokens into an
  expression tree (`jlox/src/expr.rs`). The grammar runs from equality down to
  comparison, term, factor, unary and primary.

Both stages report errors through `Lox::error` and `Lox::parse_error`
(`jlox/src/lox.rs`). Here those reports become entries appended to a log.

Each stage appears twice:

- **As the source writes it.** The classes `Scanning.Scanner` and `Parsing.Parser`
  keep the source's fields (`start`, `current`, `line`, `tokens`, the report log) and
  update them in place. `Scanner`'s methods follow the source's methods, with two
  changes. `Single`, `OperatorArm`, `SlashArm`, `QuoteArm`, `OtherArm`, `AddOperator`
  and `SlashOrComment` split the arms of `scan_token` into methods of their own.
  `SkipComment`, `SkipToQuote`, `SkipNumber`, `SkipDigits` and `SkipAlphanumeric`
  pull the inline loops of `scan_token`, `string`, `number` and `identifier` out into
  methods. `Parser`'s methods match the source's one for one.
- **As pure functions over the input and a position.** Module `Lexer` states what one
  call of `scan_token` does (`ScanStep`) and what a whole scan yields (`Lex`). Module
  `Grammar` states what each parsing routine returns, where it leaves the cursor and
  what it logs (`ExpressionAt` … `PrimaryAt`, gathered in an `Outcome`).

Every method with a contract is proved to produce exactly what its function
describes. (`Scanner.Peek`, `Scanner.PeekNext`, `Scanner.IsAtEnd`, `Parser.Peek` and
`Parser.Previous` are plain accessors without one.) The lemmas then prove properties
of those functions:

- what a scan produces (`LexerFacts`, `LexerRules`), and that it drops nothing: every
  character between tokens is one the scanner skips or reports, and each
  "Unexpected character." report carries the line of such a character (`LexerGaps`);
- which trees the parser can build and which diagnostics it can log (`GrammarFacts`);
- that the parser inverts a printer of trees into tokens, and that every success
  consumed exactly such a printing (`Spelling`, `GrammarRoundTrip`);
- that a complete scan is always an acceptable input for the parser (`Frontend`).

Worked examples (`LexerExamples`, `GrammarExamples`, `FrontendExamples`) pin down the
behaviour on small inputs, including one source taken through both stages.

Three behaviours of the code are easy to miss, and the model keeps each of them:

- **Unterminated string.** `string` reports "Unterminated string." and then calls
  `advance` at the end of the source, which indexes past the end and panics
  (`jlox/src/scanner.rs:190-193`). No end-of-input token is produced. The model ends
  such a scan as `Aborted`, keeping the diagnostics reported up to then.
- **Underscores in words.** The identifier loop calls `char::is_alphanumeric`, not the
  scanner's own `is_alphanumeric` (`jlox/src/scanner.rs:215`). So an underscore starts
  a word but does not continue one, and `a_b` scans as `a` followed by `_b`
  (`LexerExamples.UnderscoreSplitsWords`).
- **Comparison chains.** `comparison` parses its right operand with `comparison`
  again (`jlox/src/parser.rs:153`), so `1 < 2 < 3` groups to the right, while the
  other binary rungs group to the left (`GrammarExamples.ComparisonNestsRight`,
  `Grammar.Canonical`).

## Model

| member | source | states |
|---|---|---|
| Scanning.Scanner.constructor | jlox/src/scanner.rs:19-50 | a new scanner is at position 0 on line 1, with no tokens and no reports |
| Scanning.Scanner.ScanTokens | jlox/src/scanner.rs:52-64 | the loop leaves the tokens and reports that `Run` gives from the starting state: the full list ending in EOF, or the abort after an open string |
| Scanning.Scanner.ScanToken | jlox/src/scanner.rs:70-137 | one call takes the scanner from its state to `StepFrom` of that state: the token, line and reports the lexical rules give |
| Scanning.Scanner.Single | jlox/src/scanner.rs:73-82 | a one-character token is emitted with its lexeme and current line |
| Scanning.Scanner.OperatorArm | jlox/src/scanner.rs:83-114 | `!`, `=`, `<`, `>` emit the two-character operator exactly when `=` follows |
| Scanning.Scanner.AddOperator | jlox/src/scanner.rs:84-89 | the operator emitted and the cursor are those of `WithEqual` |
| Scanning.Scanner.SlashArm | jlox/src/scanner.rs:115-123 | `/` is a comment skipped to the line break when another `/` follows, otherwise SLASH |
| Scanning.Scanner.SlashOrComment | jlox/src/scanner.rs:116-122 | the state after `/` is the one `SlashStep` gives |
| Scanning.Scanner.QuoteArm | jlox/src/scanner.rs:126 | `"` leaves the state `StringStep` gives, and reports false exactly when the string is left open |
| Scanning.Scanner.OtherArm | jlox/src/scanner.rs:127-135 | a digit starts a number, a letter or `_` a word, any other character adds "Unexpected character." and is skipped |
| Scanning.Scanner.Advance | jlox/src/scanner.rs:139-143 | returns the character at the cursor and moves the cursor by one |
| Scanning.Scanner.AddToken | jlox/src/scanner.rs:145-147 | appends a token without payload, whose lexeme is the source slice from `start` to `current` |
| Scanning.Scanner.AddTokenLiteral | jlox/src/scanner.rs:149-157 | appends exactly one token carrying the slice, the payload and the current line |
| Scanning.Scanner.Matches | jlox/src/scanner.rs:159-165 | consumes one character exactly when it is the expected one, and reports whether it did |
| Scanning.Scanner.Error | jlox/src/lox.rs:37-39 | appends one scanner diagnostic with no context to the log |
| Scanning.Scanner.SkipComment | jlox/src/scanner.rs:117-119 | the comment loop stops at the next line break or the end (`FindFrom`) and passes no line break |
| Scanning.Scanner.SkipToQuote | jlox/src/scanner.rs:184-189 | the string loop stops at the next quote or the end, adding one line per line break passed |
| Scanning.Scanner.String | jlox/src/scanner.rs:183-196 | a string gives the STRING token whose payload is the text between the quotes, or "Unterminated string." with the cursor at the end |
| Scanning.Scanner.Number | jlox/src/scanner.rs:198-212 | a number gives the NUMBER token whose payload is its own lexeme, ending at `NumberEnd` |
| Scanning.Scanner.SkipNumber | jlox/src/scanner.rs:199-207 | the loops of `number` stop at `NumberEnd`: digits, then a fraction only when a digit follows the point |
| Scanning.Scanner.SkipDigits | jlox/src/scanner.rs:199-201 | the digit loop stops at the end of the run of digits |
| Scanning.Scanner.SkipAlphanumeric | jlox/src/scanner.rs:215-217 | the word loop stops at the first character that is not an ASCII letter or digit |
| Scanning.Scanner.Identifier | jlox/src/scanner.rs:214-222 | a word gets its keyword kind from the table, or IDENTIFIER |
| Scanning.Scan | jlox/src/lox.rs:63-66 | scanning a whole source yields tokens exactly when `Lex` completes, those tokens, and `Lex`'s diagnostics |
| Lexer.IsAlpha | jlox/src/scanner.rs:224-226 | a character starts a word exactly when it is `_` or a letter: alphanumeric but not a digit |
| Lexer.IsAlphanumeric | jlox/src/scanner.rs:215 | `char::is_alphanumeric` holds for every digit and never for `_` |
| Lexer.TableOfPairs | jlox/src/scanner.rs:28-48 | every key of the keyword table comes from a pair with its value, and every pair's key is in the table |
| Lexer.WordKind | jlox/src/scanner.rs:219-220 | a word's kind is never EOF |
| Lexer.DigitsEnd | jlox/src/scanner.rs:199-201 | the digit run ends on the source and before a non-digit |
| Lexer.WordEnd | jlox/src/scanner.rs:215-217 | the word ends on the source and before a character that is not alphanumeric |
| Lexer.FindFrom | jlox/src/scanner.rs:184-189 | the search for a closing quote, and for the line break that ends a comment (lines 117-119), stops on the source, at the end or on the character sought |
| Lexer.NumberEnd | jlox/src/scanner.rs:198-207 | a number takes at least its first digit and stays on the source |
| Lexer.ScanStep | jlox/src/scanner.rs:70-137 | a step that emits or skips moves forward on the source, and never emits EOF |
| Lexer.SlashStep | jlox/src/scanner.rs:115-123 | `/` always emits or skips, and moves forward |
| Lexer.StringStep | jlox/src/scanner.rs:183-196 | `"` emits a STRING token or fails as unterminated |
| Lexer.NumberStep | jlox/src/scanner.rs:198-212 | a digit always emits a NUMBER token |
| Lexer.WordStep | jlox/src/scanner.rs:214-222 | a letter always emits a token that is not EOF |
| Lexer.StepFrom | jlox/src/scanner.rs:53-56 | each pass of the scan loop moves the cursor forward, so the scan ends |
| Lexer.Apply | jlox/src/scanner.rs:145-157 | applying a step moves the cursor forward and stays on the source |
| Lexer.StepExtends | jlox/src/scanner.rs:53-56 | a pass of the scan loop keeps the tokens and reports found so far, and a pass that stops the scan adds a report |
| Lexer.Run | jlox/src/scanner.rs:52-64 | the rest of a scan only appends tokens and reports; it completes only while running, adding at least the EOF token, which spans nothing at the end of the source; an abort adds a report |
| Lexer.Lex | jlox/src/scanner.rs:52-64 | a complete scan ends with the EOF token at the end of the source; an aborted one has at least one report |
| Lexer.NumberOnOneLine | jlox/src/scanner.rs:198-207 | a number literal never spans a line break |
| Lexer.DigitsRun | jlox/src/scanner.rs:199-201 | every character the digit loop passes is a digit |
| Lexer.WordRun | jlox/src/scanner.rs:215-217 | every character the word loop passes is alphanumeric |
| Lexer.FindRun | jlox/src/scanner.rs:184-189 | the search passes no character it seeks: a string body holds no double quote, a comment (lines 117-119) no line break |
| LexerFacts.StepScanned | jlox/src/scanner.rs:70-137 | one step keeps the scan invariant: tokens cut in order from the source, each one what a step emits at its start, each on the line it ends on, only the allowed diagnostics |
| LexerFacts.FinishTokenized | jlox/src/scanner.rs:57-62 | at the end of the source, pushing the EOF token turns the tokens found into a tokenization |
| LexerFacts.RunScanned | jlox/src/scanner.rs:52-64 | a complete scan is a tokenization ending in EOF, with no token dropped, and only "Unexpected character." reports, each on the line of a character no rule takes; an aborted one ends with "Unterminated string." on the last line |
| LexerFacts.LexScanned | jlox/src/scanner.rs:52-64 | the same for a whole scan from the start, the abort's report being exactly `LexError` of the last line and "Unterminated string." |
| LexerFacts.LexTokenized | jlox/src/scanner.rs:52-64 | the list of a complete scan is a tokenization: cut in order, nothing dropped, EOF last |
| LexerFacts.TokenList | jlox/src/scanner.rs:57-62 | a complete scan has exactly one EOF token, last, with an empty lexeme, on the last line, and line numbers never decrease |
| LexerFacts.LinesInOrder | jlox/src/scanner.rs:52-64 | the line numbers of the tokens never decrease |
| LexerGaps.QuietExtend | jlox/src/scanner.rs:124-135 | a stretch of skipped and unexpected characters grows by one more such character |
| LexerGaps.GaplessStart | jlox/src/scanner.rs:19-27 | a new scanner has dropped nothing |
| LexerGaps.GaplessQuiet | jlox/src/scanner.rs:124-135 | skipping a character, or reporting it as unexpected, drops no token |
| LexerGaps.NoneDroppedAppend | jlox/src/scanner.rs:145-157 | a token appended after a stretch that holds no token leaves nothing dropped |
| LexerGaps.GaplessEmit | jlox/src/scanner.rs:145-157 | emitting a token keeps every gap free of tokens |
| LexerGaps.GaplessFinish | jlox/src/scanner.rs:57-62 | pushing the EOF token at the end leaves nothing dropped, the trailing gap included |
| LexerGaps.PlacedUnexpected | jlox/src/scanner.rs:133 | an "Unexpected character." report carries the line of a character no rule takes |
| LexerGaps.PlacedAbort | jlox/src/scanner.rs:190-191 | the report that aborts the scan is the only one not tied to an unexpected character |
| LexerGaps.StepTraced | jlox/src/scanner.rs:53-56 | one pass of the scan loop drops no token and places each new report on its character's line |
| LexerGaps.TracedEmit | jlox/src/scanner.rs:145-157 | the same for a pass that emits a token |
| LexerGaps.TracedSkip | jlox/src/scanner.rs:115-125 | the same for a pass that skips blanks or a comment |
| LexerGaps.TracedUnexpected | jlox/src/scanner.rs:133 | the same for a pass that reports an unexpected character |
| LexerGaps.TracedAbort | jlox/src/scanner.rs:190-193 | the same for a pass that aborts on an open string |
| LexerRules.KeywordsSpelled | jlox/src/scanner.rs:28-48 | each keyword of the table maps to the kind spelled that way |
| LexerRules.KeywordsComplete | jlox/src/scanner.rs:28-48 | every keyword kind is in the table |
| LexerRules.SpelledAsKind | jlox/src/scanner.rs:73-114 | every punctuation, operator or keyword token has its fixed spelling as lexeme and no payload |
| LexerRules.LongestOperator | jlox/src/scanner.rs:83-114 | `!`, `=`, `<`, `>` take a following `=` whenever there is one |
| LexerRules.WhitespaceSkipped | jlox/src/scanner.rs:124-125 | blanks and line breaks are skipped one at a time |
| LexerRules.CommentSkipped | jlox/src/scanner.rs:116-119 | `//` skips up to the next line break, excluded, or to the end |
| LexerRules.NumberShape | jlox/src/scanner.rs:198-207 | a number's text is digits, then at most one point followed by digits |
| LexerRules.NumberLongest | jlox/src/scanner.rs:198-207 | a number is the longest available, so `123.` leaves the point |
| LexerRules.NumberToken | jlox/src/scanner.rs:198-212 | a digit starts a NUMBER token whose payload is its lexeme |
| LexerRules.WordToken | jlox/src/scanner.rs:214-222 | a word runs over letters and digits, and is a keyword exactly when the table has it |
| LexerRules.StringToken | jlox/src/scanner.rs:183-196 | a string runs to the next quote, with the text between the quotes as payload, and fails exactly when no quote follows |
| LexerRules.UnexpectedCharacter | jlox/src/scanner.rs:127-135 | exactly the characters no arm takes draw "Unexpected character." |
| LexerExamples.NumberThenDot | jlox/src/scanner.rs:202 | `123.` scans as NUMBER 123, DOT, EOF |
| LexerExamples.UnderscoreSplitsWords | jlox/src/scanner.rs:215 | `a_b` scans as two identifiers, `a` and `_b` |
| LexerExamples.OpenStringAborts | jlox/src/scanner.rs:190-193 | an open string aborts the scan with its one diagnostic |
| LexerExamples.MultiLineString | jlox/src/scanner.rs:184-189 | a string across a line break carries the line it ends on, and its payload keeps the break |
| LexerExamples.CommentThenOperator | jlox/src/scanner.rs:115-125 | a comment is skipped, its line break still counts, and `!=` is one token |
| LexerExamples.UnexpectedIsSkipped | jlox/src/scanner.rs:133 | an unknown character is reported and the scan goes on |
| LexerExamples.DroppedTokenRejected | jlox/src/scanner.rs:52-64 | for `1 2`, a list holding only the `2` and EOF is not a tokenization: the `1` cannot be dropped |
| FrontendExamples.ScanArithmetic | jlox/src/scanner.rs:52-64 | `1 + 2 * 3` scans to NUMBER, PLUS, NUMBER, STAR, NUMBER, EOF with no reports |
| FrontendExamples.ScanThenParse | jlox/src/lox.rs:65-69 | scanning `1 + 2 * 3` and parsing its tokens gives `1 + (2 * 3)`, stops on EOF and logs nothing |
| Tokens.LexError | jlox/src/lox.rs:37-39 | a scanner diagnostic has the given line and message and an empty context |
| Tokens.ParseErrorReport | jlox/src/lox.rs:29-35 | a parser diagnostic has the token's line and the message; its context is " at end" exactly for EOF, otherwise the lexeme inside " at '…'" |
| Grammar.AtEnd | jlox/src/parser.rs:52-54 | the last token of a list ending in EOF is at the end |
| Grammar.Checks | jlox/src/parser.rs:38-43 | true exactly when the current token has the kind and the kind is not EOF |
| Grammar.MatchesAt | jlox/src/parser.rs:28-36 | true when any of the kinds checks, and only then |
| Grammar.Advanced | jlox/src/parser.rs:45-50 | `advance` stays on the list and stands still exactly at EOF |
| Grammar.BinaryKind | jlox/src/expr.rs:19-30 | each binary operator is spelled by a token of its own rung |
| Grammar.BinaryOpOf | jlox/src/parser.rs:101-115 | the operator mapping inverts `BinaryKind` on the ten operator kinds |
| Grammar.UnaryOpOf | jlox/src/parser.rs:117-123 | the prefix mapping inverts `UnaryKind` on BANG and MINUS |
| Grammar.ExpressionAt | jlox/src/parser.rs:125-127 | the cursor stays on the list and never moves back; a success consumes a token and logs nothing |
| Grammar.EqualityAt | jlox/src/parser.rs:129-141 | the same for `equality` |
| Grammar.EqualityLoop | jlox/src/parser.rs:131-139 | the loop of `equality` stays on the list, never moves back, and logs nothing when it succeeds |
| Grammar.ComparisonAt | jlox/src/parser.rs:143-157 | the same for `comparison` |
| Grammar.ComparisonLoop | jlox/src/parser.rs:145-155 | the same for the loop of `comparison` |
| Grammar.TermAt | jlox/src/parser.rs:159-168 | the same for `term` |
| Grammar.TermLoop | jlox/src/parser.rs:161-166 | the same for the loop of `term` |
| Grammar.FactorAt | jlox/src/parser.rs:170-180 | the same for `factor` |
| Grammar.FactorLoop | jlox/src/parser.rs:172-178 | the same for the loop of `factor` |
| Grammar.UnaryAt | jlox/src/parser.rs:182-190 | the same for `unary` |
| Grammar.PrimaryAt | jlox/src/parser.rs:192-226 | the same for `primary` |
| Grammar.PayloadAt | jlox/src/parser.rs:201-215 | the same for the STRING and NUMBER branches |
| Grammar.GroupingAt | jlox/src/parser.rs:217-224 | the same for the parenthesis branch |
| Grammar.Parse | jlox/src/parser.rs:21-26 | the same for `parse` |
| Grammar.SkipToBoundary | jlox/src/parser.rs:84-98 | the recovery loop stops on the list |
| Grammar.Synchronized | jlox/src/parser.rs:81-99 | `synchronize` stops on the list, past the first token and never before its start, and stays where it is only at EOF |
| GrammarFacts.ParseBehaved | jlox/src/parser.rs:21-26 | `parse` either builds a tree the grammar allows, followed by a token that is no binary operator, or logs one diagnostic naming where it stopped (none after a token with a wrong payload) |
| GrammarFacts.EqualityBehaved | jlox/src/parser.rs:129-141 | `equality` builds a left-nested chain and stops on no binary operator |
| GrammarFacts.EqualityLoopBehaved | jlox/src/parser.rs:131-139 | the loop of `equality` keeps the tree well built |
| GrammarFacts.ComparisonBehaved | jlox/src/parser.rs:143-157 | `comparison` builds a right-nested chain binding at least as tightly as a comparison, and stops on no operator but an equality one |
| GrammarFacts.ComparisonLoopBehaved | jlox/src/parser.rs:145-155 | the loop of `comparison` keeps the tree well built; after one turn it meets no comparison operator, so it turns at most once |
| GrammarFacts.TermBehaved | jlox/src/parser.rs:159-168 | `term` builds a left-nested chain and stops on neither a term nor a factor operator |
| GrammarFacts.TermLoopBehaved | jlox/src/parser.rs:161-166 | the loop of `term` keeps the tree well built |
| GrammarFacts.FactorBehaved | jlox/src/parser.rs:170-180 | `factor` builds a left-nested chain of prefix expressions and never stops on a factor operator |
| GrammarFacts.FactorLoopBehaved | jlox/src/parser.rs:172-178 | the loop of `factor` keeps the tree well built |
| GrammarFacts.UnaryBehaved | jlox/src/parser.rs:182-190 | `unary` builds nested prefix operators over a primary |
| GrammarFacts.PrimaryBehaved | jlox/src/parser.rs:192-226 | `primary` gives a literal or grouping, or "Expect expression." at the token it stopped on |
| GrammarFacts.PayloadBehaved | jlox/src/parser.rs:201-215 | a STRING or NUMBER token gives its literal, or fails silently when its payload is of the wrong kind |
| GrammarFacts.GroupingBehaved | jlox/src/parser.rs:217-224 | a group needs its `)`, else "Expect ')' after expression." at the token found instead |
| GrammarFacts.SkipFindsBoundary | jlox/src/parser.rs:84-98 | the recovery loop stops at the first boundary from its start |
| GrammarFacts.SynchronizeStops | jlox/src/parser.rs:81-99 | `synchronize` moves past its token unless at EOF, then stops at the first EOF, token after `;`, or statement keyword |
| Spelling.Shapes | jlox/src/expr.rs:2-7 | every tree is printed as a non-empty token sequence |
| GrammarRoundTrip.UnaryKindInverse | jlox/src/parser.rs:117-123 | the prefix mapping is a left inverse of the printer |
| GrammarRoundTrip.BinaryKindInverse | jlox/src/parser.rs:101-115 | the binary mapping is a left inverse of the printer |
| GrammarRoundTrip.ParseSpelling | jlox/src/parser.rs:21-26 | parsing the printing of any tree the grammar allows gives back that tree and stops on EOF |
| GrammarRoundTrip.ExpressionPrints | jlox/src/parser.rs:125-127 | `expression` on a printed tree followed by a non-operator returns the tree and logs nothing |
| GrammarRoundTrip.EqualityPrefix | jlox/src/parser.rs:129-141 | `equality` reads a printed chain as its left-nested tree |
| GrammarRoundTrip.ComparisonPrints | jlox/src/parser.rs:143-157 | `comparison` reads a printed right-nested chain back |
| GrammarRoundTrip.TermPrints | jlox/src/parser.rs:159-168 | `term` reads a printed left-nested chain back |
| GrammarRoundTrip.FactorPrints | jlox/src/parser.rs:170-180 | `factor` reads a printed left-nested chain back |
| GrammarRoundTrip.UnaryPrints | jlox/src/parser.rs:182-190 | `unary` reads printed prefix operators and primaries back |
| GrammarRoundTrip.LiteralPrints | jlox/src/parser.rs:193-215 | `primary` reads a printed literal back |
| GrammarRoundTrip.GroupingPrints | jlox/src/parser.rs:217-224 | `primary` reads a printed group back |
| GrammarRoundTrip.ParseConsumed | jlox/src/parser.rs:21-26 | every success of `parse` consumed exactly the printing of the tree it returns |
| GrammarRoundTrip.EqualityLoopConsumed | jlox/src/parser.rs:131-139 | given the printing of the tree built so far, the `equality` loop's result is printed by exactly the tokens it consumed from that tree's start |
| GrammarRoundTrip.UnaryConsumed | jlox/src/parser.rs:182-190 | a success of `unary` consumed exactly the printing of its tree |
| GrammarRoundTrip.GroupingConsumed | jlox/src/parser.rs:217-224 | a group consumed its parentheses around the printing of its inner tree |
| GrammarExamples.EqualityNestsLeft | jlox/src/parser.rs:129-141 | `1 == 2 == 3` parses as `(1 == 2) == 3` |
| GrammarExamples.ComparisonNestsRight | jlox/src/parser.rs:153 | `1 < 2 < 3` parses as `1 < (2 < 3)` |
| GrammarExamples.FactorBindsTighter | jlox/src/parser.rs:159-180 | `1 + 2 * 3` parses as `1 + (2 * 3)` |
| GrammarExamples.UnaryNests | jlox/src/parser.rs:182-190 | `- - 1` nests its prefix operators |
| GrammarExamples.UnclosedGroup | jlox/src/parser.rs:219-222 | `(1` fails with "Expect ')' after expression." reported " at end" |
| GrammarExamples.StrayParenthesis | jlox/src/parser.rs:225 | `)` fails with "Expect expression." reported at `')'`, the cursor unmoved |
| GrammarExamples.TrailingTokensLeft | jlox/src/parser.rs:21-26 | `1 2` parses `1` and stops before `2` |
| Parsing.Parser.constructor | jlox/src/parser.rs:17-19 | a new parser has its cursor on the first token and nothing reported, and is ready to parse whenever its list ends with EOF |
| Parsing.Parser.Parse | jlox/src/parser.rs:21-26 | returns the tree exactly when `ExpressionAt` succeeds, with its cursor and log |
| Parsing.Parser.Matches | jlox/src/parser.rs:28-36 | consumes exactly one token when one of the kinds checks, none otherwise |
| Parsing.Parser.Check | jlox/src/parser.rs:38-43 | true exactly when the current token has the kind and is not EOF |
| Parsing.Parser.Advance | jlox/src/parser.rs:45-50 | moves one token on unless at EOF, and returns the token just passed |
| Parsing.Parser.IsAtEnd | jlox/src/parser.rs:52-54 | true exactly on the EOF token |
| Parsing.Parser.Consume | jlox/src/parser.rs:64-74 | takes the expected token, or reports the message at the current token and fails without moving |
| Parsing.Parser.Error | jlox/src/parser.rs:76-79 | appends the diagnostic `parse_error` prints for the token: " at end" at EOF, " at '<lexeme>'" otherwise |
| Parsing.Parser.Synchronize | jlox/src/parser.rs:81-99 | leaves the cursor where `Synchronized` says, logging nothing |
| Parsing.Parser.Expression | jlox/src/parser.rs:125-127 | result, cursor and log are those of `ExpressionAt` |
| Parsing.Parser.Equality | jlox/src/parser.rs:129-141 | result, cursor and log are those of `EqualityAt` |
| Parsing.Parser.Comparison | jlox/src/parser.rs:143-157 | result, cursor and log are those of `ComparisonAt` |
| Parsing.Parser.Term | jlox/src/parser.rs:159-168 | result, cursor and log are those of `TermAt` |
| Parsing.Parser.Factor | jlox/src/parser.rs:170-180 | result, cursor and log are those of `FactorAt` |
| Parsing.Parser.Unary | jlox/src/parser.rs:182-190 | result, cursor and log are those of `UnaryAt` |
| Parsing.Parser.Primary | jlox/src/parser.rs:192-226 | result, cursor and log are those of `PrimaryAt` |
| Frontend.StepPayload | jlox/src/scanner.rs:195-211 | the scanner gives STRING tokens only string payloads and NUMBER tokens only number payloads |
| Frontend.LexFeedsParser | jlox/src/lox.rs:65-68 | a complete scan ends with EOF and carries the right payloads, as the parser needs |
| Frontend.ParseScanned | jlox/src/lox.rs:65-69 | parsing a complete scan builds a tree the grammar allows, or logs exactly one diagnostic |

## Left out

- Printing: `Lox::report`, `run`'s debug output and `Token`'s `Display` are not modelled. Diagnostics are kept as `Report` values in a log: line, context, message.
- `main.rs`, `run_prompt` and `run_file` are not modelled. They are I/O: command-line arguments, standard input, files.
- `run` unwraps the result of `parse`, and so panics on a parse error. `Frontend` composes the scanner and the parser but does not model that panic.
- Number values: the source parses a number's lexeme into an `f64`. Here the value is the lexeme itself (`NumberValue`); floating point is not modelled.
- Lexer.IsAlpha, Lexer.IsAlphanumeric: `char::is_alphabetic` and `char::is_alphanumeric` are reduced to ASCII letters and digits, because Unicode character tables are out of scope. So a non-ASCII letter such as `é` draws "Unexpected character." in the model (`LexerRules.UnexpectedCharacter`), whereas the source lets it start or continue an identifier.
- Line numbers: the source counts lines in a `u32`. Here they are unbounded, so wrap-around after 2^32 lines is not modelled.
- The scanner's `lox` and `source_len` fields are not modelled. Source text is a `seq<char>` and its length is `|source|`.
- The parser's borrowed `lox` reference becomes the `reports` field. Lifetimes and borrowing are not modelled.
- Scanning.Scanner.ScanTokens: after an open string the source panics by reading past the end of its buffer. The method instead returns false with the diagnostics logged so far.
- Grammar.BinaryOpOf, Grammar.UnaryOpOf: the source panics on any other token kind. The precondition excludes those kinds; every call site has just matched one of the allowed kinds.
- Parsing.Parser.Advance, Parsing.Parser.Synchronize: require that the cursor is not on an EOF token at position 0. There the source's `previous` would index before the list and panic.
- `synchronize` is never called by the expression parser. Its boundaries are modelled and proved, but no statement loop that would call it.
- `Scanning.Scanner.Peek`, `PeekNext` and `IsAtEnd`, and `Parsing.Parser.Peek` and `Previous`, are plain accessors. They have no separate contract.
