# Lox front end: scanners and expression parser

A model of the front end of a Lox interpreter written in Java:

- `src/JLox/Scanner.java`: the full scanner. One left-to-right pass over the
  source text with the fields `start`, `current` and `line`. It appends tokens
  to a list and handles the following:
  - one- and two-character operators;
  - `//` line comments and nested block comments;
  - strings, numbers, identifiers and the 16 reserved words;
  - "Unexpected character." reports.
- `src/JLox/Parser.java`: the recursive-descent expression parser. The cascade
  is equality, comparison, addition, multiplication, unary, primary. A cursor
  `current` moves over a token list that ends in `EOF`. The module also models
  the cursor primitives (`match`, `check`, `advance`, `isAtEnd`, `peek`,
  `previous`), `consume`, `error` and `synchronize`.
- `src/Scanner.java`: an earlier, reduced scanner. It has no numbers,
  identifiers or block comments. Any other character, including digits and
  letters, is reported as "unexpected character.".

Each Java class is a Dafny `class` with the same mutable fields. Its methods
are listed in the table under "## Model"; where they differ in structure from
the Java is listed after the departures below. Every method is proved to change the fields exactly as a specification function of
the same step says. The properties are proved as lemmas about those
functions:

| file | module |
|---|---|
| `tokens.dfy`, `ast.dfy`, `wrappers.dfy` | `Token`, `TokenType`, the literal `Value`, `Expr`, `Option` as plain datatypes |
| `chars.dfy` | `peek`/`peekNext` and the two loops both scanners share (`//` comment, string body) |
| `lexing.dfy` | the scanner's fields as a value (`LexState`), the effect of one `scanToken` step (`Apply`), the shape of a finished token list |
| `lox_lexicon.dfy`, `lox_scanner.dfy` | `src/JLox/Scanner.java`: specification functions and lemmas, then the class |
| `early_lexicon.dfy`, `early_scanner.dfy` | `src/Scanner.java`, the same way |
| `lox_grammar.dfy`, `lox_parser.dfy` | `src/JLox/Parser.java`: the grammar as functions of token list and cursor, then the class |

Conventions:

- `JLox.error` appends a report to a ghost log `errors`. For the scanners a
  report is `LexError(line, message)`; for the parser it is
  `ParseError(token, message)`.
- A thrown `ParseError` is a `None` result. The exception thrown by the
  `advance()` that follows an unterminated string is a `Crash` outcome, and
  `ScanTokens` then returns `None`.
- Each method's contract says which specification function it follows.
  What those functions promise is stated in their own contracts and in the
  lemmas about them, listed under "## Model". They are:
  - `LoxLexicon.LexOne`/`Run`/`Lex`, one `scanToken` call, the `scanTokens`
    loop, and a whole scan of `src/JLox/Scanner.java`;
  - `EarlyLexicon.LexOne`/`Run`/`Lex`, the same three for `src/Scanner.java`;
  - `Lexing.LexString`, the string step both scanners share;
  - `LoxGrammar.ParseExpression` … `ParsePrimary` and `LoxGrammar.Parse`, one
    function per rule of the cascade, plus `parse`;
  - `LoxGrammar.SynchronizeEnd`, where `synchronize` stops.

## Model

| member | source | states |
|---|---|---|
| `Lexing.Apply` | src/JLox/Scanner.java:111-118 | a step that adds a token appends exactly `Token(kind, source[start..end], literal, line)` and moves `current` forward within the text; a step that adds none leaves the list alone; the scan throws exactly on an unterminated string |
| `Lexing.ApplyKeepsCoherent` | src/JLox/Scanner.java:31-35 | one step keeps the list coherent: every token is a non-empty slice of the source before `current`, not `EOF`, in source order, with non-decreasing lines |
| `Lexing.FinishStream` | src/JLox/Scanner.java:36 | appending `EOF` after the loop gives a list with exactly one `EOF`, last, with empty lexeme and the final line |
| `Lexing.StringToken` | src/JLox/Scanner.java:137-153 | a closed string's lexeme runs quote to quote, its literal is the text strictly between (no quote in it), and the token carries the line of the closing quote, one more per embedded newline |
| `Lexing.UnterminatedString` | src/JLox/Scanner.java:143-149 | a string that runs to the end of the text is reported on the last line and the scan then throws; no token list comes back |
| `Chars.LineEndStops` | src/JLox/Scanner.java:64-66 | the `//` loop passes only non-newlines and stops at the first newline or the end of the text |
| `Chars.StringEndStops` | src/JLox/Scanner.java:138-141 | the string loop stops at the first quote or the end and counts exactly the newlines it passed |
| `LoxLexicon.CommentStep` | src/JLox/Scanner.java:125-133 | one pass of the block-comment loop body consumes at least one character and changes the depth by at most one; what each case does is stated by the three lemmas below |
| `LoxLexicon.CommentStepOpens` | src/JLox/Scanner.java:125-133 | slash-star not followed by '/' raises the depth by one and consumes both characters |
| `LoxLexicon.CommentStepCloses` | src/JLox/Scanner.java:129-133 | star-slash lowers the depth by one and consumes both characters |
| `LoxLexicon.CommentStepPasses` | src/JLox/Scanner.java:125-133 | a '/' or '*' that starts neither mark is consumed alone and leaves the depth as it was |
| `LoxLexicon.BlockComment` | src/JLox/Scanner.java:120-135 | the block-comment loops stop inside the text or at its end; their stopping point and depth are stated by the lemmas below |
| `LoxLexicon.BlockCommentPasses` | src/JLox/Scanner.java:123 | characters other than '/' and '*' are passed over at the same depth |
| `LoxLexicon.BlockCommentCloses` | src/JLox/Scanner.java:120-135 | the loops stop at the end of the text or with the depth back at 0, and a comment that was open and closes ends just after the star-slash that closed it |
| `LoxLexicon.NestedBlockComment` | src/JLox/Scanner.java:120-135 | in `/*` a `/*` b `*/` c `*/` d, with no marks in a, b and c, the inner star-slash does not end the comment: it ends just before d |
| `LoxLexicon.RunPastComment` | src/JLox/Scanner.java:31-35 | a text that opens with slash-star: the loop goes on where the block comment stops, having added and reported nothing |
| `LoxLexicon.CommentThenOne` | src/JLox/Scanner.java:31-38 | a text that is one block comment ending just before a final '1' scans to one `NUMBER` token and `EOF` on line 1 |
| `LoxLexicon.NestedCommentThenNumber` | src/JLox/Scanner.java:120-135 | so `/* outer /* inner */ still-outer */1`, and any text of that shape, scans to one `NUMBER` token `1` and `EOF`, with nothing reported |
| `LoxLexicon.DigitsEndStops` | src/JLox/Scanner.java:160 | the digit loop passes digits only and stops at the first non-digit |
| `LoxLexicon.WordEndStops` | src/JLox/Scanner.java:170 | the identifier loop passes letters, digits and '_' only and stops at the first other character |
| `LoxLexicon.LexOne` | src/JLox/Scanner.java:43-97 | every `scanToken` step consumes at least one character and stays in the text, never lowers `line`, never emits `EOF`, and emits a `NUMBER` only with a number literal and a `STRING` only with a string literal |
| `LoxLexicon.LexSlash` | src/JLox/Scanner.java:63-73 | '/' is a `SLASH` token of one character exactly when neither '/' nor '*' follows; otherwise a comment is skipped and no token is added |
| `LoxLexicon.LexWord` | src/JLox/Scanner.java:87-95 | the default case adds a token exactly when the character is a letter, digit or '_', and otherwise reports it |
| `LoxLexicon.RunCoherent` | src/JLox/Scanner.java:31-35 | the loop of `scanTokens` keeps the list coherent and, when it does not throw, uses up the text |
| `LoxLexicon.LexEndsWithEof` | src/JLox/Scanner.java:31-38 | a scan that does not throw ends with exactly one `EOF` token, with empty lexeme, null literal and the final line, and no other token is `EOF` |
| `LoxLexicon.RunLiteralsOfKind` | src/JLox/Scanner.java:137-166 | the loop of `scanTokens` keeps every `NUMBER` token carrying a number literal and every `STRING` token a string literal |
| `LoxLexicon.LexLiteralsOfKind` | src/JLox/Scanner.java:137-166 | so in the list of a scan that does not throw, every `NUMBER` and `STRING` token carries a literal of its kind |
| `LoxLexicon.LexTokenStream` | src/JLox/Scanner.java:31-38 | each lexeme is the slice of the source its span names; spans are non-empty, ordered and disjoint; lines never decrease |
| `LoxLexicon.OperatorLookahead` | src/JLox/Scanner.java:59-62 | '!', '=', '<', '>' take the two-character kind with a two-character lexeme exactly when '=' follows, and otherwise consume one character |
| `LoxLexicon.LineCommentSkipsLine` | src/JLox/Scanner.java:64-66 | `//` adds no token and skips up to, not including, the next newline or to the end |
| `LoxLexicon.WhitespaceSkipped` | src/JLox/Scanner.java:76-82 | space, '\r' and '\t' are skipped; a newline is skipped and increments `line` |
| `LoxLexicon.UnexpectedCharacterReported` | src/JLox/Scanner.java:87-95 | any other character is reported with "Unexpected character." on the current line, adds no token, and the scan moves on by one |
| `LoxLexicon.SlashStarSlash` | src/JLox/Scanner.java:125-133 | within one pass of the loop, slash-star-slash leaves the depth unchanged and consumes three characters |
| `LoxLexicon.BlockCommentKeepsLine` | src/JLox/Scanner.java:120-135 | a block comment adds no token, reports nothing and leaves `line` unchanged whatever newlines it holds |
| `LoxLexicon.NumberEndShape` | src/JLox/Scanner.java:159-165 | `number` consumes the longest `digit+ ('.' digit+)?`: no digit follows, and a '.' after a whole number is not followed by a digit |
| `LoxLexicon.NumberToken` | src/JLox/Scanner.java:159-167 | a digit starts a `NUMBER` token of that shape whose literal is its lexeme |
| `LoxLexicon.IdentifierToken` | src/JLox/Scanner.java:169-177 | a letter or '_' starts the longest `[A-Za-z_][A-Za-z0-9_]*` lexeme, with the reserved word's kind when it is one and `IDENTIFIER` exactly when it is not |
| `LoxLexicon.KeywordTable` | src/JLox/Scanner.java:209-227 | no reserved word maps to `IDENTIFIER` or `EOF` |
| `LoxScanner.Scanner.constructor` | src/JLox/Scanner.java:23-25 | a new scanner has no tokens, `current` 0 and `line` 1 |
| `LoxScanner.Scanner.ScanTokens` | src/JLox/Scanner.java:31-38 | returns the token list `LoxLexicon.ScanFrom` gives for the fields it starts from, leaving the fields as that result; `None` exactly when that scan throws |
| `LoxScanner.Scanner.ScanToken` | src/JLox/Scanner.java:43-97 | changes the fields exactly as the `LoxLexicon.LexOne` step from `current` says, and returns false exactly when that step throws |
| `LoxScanner.Scanner.OtherCharacter` | src/JLox/Scanner.java:87-95 | the default case changes the fields as `LoxLexicon.LexWord` says |
| `LoxScanner.Scanner.SlashOrComment` | src/JLox/Scanner.java:63-73 | the '/' case changes the fields as `LoxLexicon.LexSlash` says |
| `LoxScanner.Scanner.Match` | src/JLox/Scanner.java:104-108 | consumes one character exactly when it is the expected one; otherwise `current` is unchanged |
| `LoxScanner.Scanner.AddToken` | src/JLox/Scanner.java:111-118 | appends `Token(kind, source[start..current], literal, line)` and nothing else |
| `LoxScanner.Scanner.MultilineComment` | src/JLox/Scanner.java:120-135 | moves `current` to where `LoxLexicon.BlockComment` at depth 1 stops, and changes nothing else, `line` included |
| `LoxScanner.Scanner.String` | src/JLox/Scanner.java:137-153 | adds the token `Lexing.LexString` gives and moves to after the closing quote; or reports "Unterminated string" and returns false |
| `LoxScanner.Scanner.Number` | src/JLox/Scanner.java:159-167 | moves to `LoxLexicon.NumberEnd` and appends a `NUMBER` token whose literal is its lexeme |
| `LoxScanner.Scanner.Identifier` | src/JLox/Scanner.java:169-177 | moves to `LoxLexicon.WordEnd` and appends a token of the reserved word's kind or `IDENTIFIER` |
| `LoxScanner.Scanner.Advance` | src/JLox/Scanner.java:194-196 | returns the character under the cursor and moves past it |
| `EarlyLexicon.LexSlash` | src/Scanner.java:56-63 | the step is skipped exactly when '/' follows; otherwise it is a one-character `SLASH` token |
| `EarlyLexicon.LexOne` | src/Scanner.java:36-80 | every step consumes at least one character and stays in the text, never lowers `line`, never emits `EOF`, and emits a `NUMBER` only with a number literal and a `STRING` only with a string literal |
| `EarlyLexicon.RunCoherent` | src/Scanner.java:24-28 | the loop keeps the list coherent and, when it does not throw, uses up the text |
| `EarlyLexicon.LexTokenStream` | src/Scanner.java:24-31 | a scan that does not throw ends with exactly one `EOF`, with empty lexeme and the final line; lexemes are the slices their spans name, in source order, with non-decreasing lines |
| `EarlyLexicon.RunCrashesOnlyOnUnclosedQuote` | src/Scanner.java:103-115 | the scan throws only when a quote is followed by no other quote |
| `EarlyLexicon.LineCommentSkipsLine` | src/Scanner.java:56-59 | `//` adds no token and skips up to, not including, the next newline or to the end |
| `EarlyLexicon.SlashStarIsTwoTokens` | src/Scanner.java:56-63 | slash-star scans as `SLASH` and then `STAR` |
| `EarlyLexicon.UnexpectedCharacterReported` | src/Scanner.java:76-78 | any character without a case, digits and letters included, is reported with "unexpected character.", adds no token, and the scan moves on |
| `EarlyLexicon.StepAgrees` | src/Scanner.java:36-80 | on punctuation, whitespace and quotes, except slash-star, a step does what the full scanner's step does |
| `EarlyLexicon.RunAgrees` | src/Scanner.java:24-28 | on a text made only of those characters, the loop does what the full scanner's loop does |
| `EarlyLexicon.LexAgrees` | src/Scanner.java:24-31 | on such a text both scanners return the same tokens, or the same failure |
| `EarlyScanner.Scanner.constructor` | src/Scanner.java:16-18 | a new scanner has no tokens, `current` 0 and `line` 1 |
| `EarlyScanner.Scanner.ScanTokens` | src/Scanner.java:24-31 | returns the token list `EarlyLexicon.ScanFrom` gives for the fields it starts from, leaving the fields as that result; `None` exactly when that scan throws |
| `EarlyScanner.Scanner.ScanToken` | src/Scanner.java:36-80 | changes the fields exactly as the `EarlyLexicon.LexOne` step says, and returns false exactly when it throws |
| `EarlyScanner.Scanner.SlashOrComment` | src/Scanner.java:56-63 | the '/' case changes the fields as `EarlyLexicon.LexSlash` says |
| `EarlyScanner.Scanner.Match` | src/Scanner.java:87-91 | consumes one character exactly when it is the expected one |
| `EarlyScanner.Scanner.AddToken` | src/Scanner.java:98-101 | appends `Token(kind, source[start..current], literal, line)` and nothing else |
| `EarlyScanner.Scanner.String` | src/Scanner.java:103-119 | adds the token `Lexing.LexString` gives; or reports "Unterminated string" and returns false |
| `EarlyScanner.Scanner.Advance` | src/Scanner.java:126-128 | returns the character under the cursor and moves past it |
| `LoxGrammar.Advance` | src/JLox/Parser.java:198-201 | `advance` never moves the cursor past the final `EOF` |
| `LoxGrammar.MatchStaysInside` | src/JLox/Parser.java:182-196 | a successful `match` is on a token of the given kinds that is not `EOF`, so the cursor after it is still on the list |
| `LoxGrammar.OpLevel` | src/JLox/Parser.java:43-92 | each binary operator belongs to the operator set of exactly the level whose loop takes it |
| `LoxGrammar.ParseExpression` | src/JLox/Parser.java:38-40 | `expression` consumes at least one token on success, and a failure is reported at a token on the list at or after the cursor |
| `LoxGrammar.ParseLevel` | src/JLox/Parser.java:43-92 | the same for each binary level |
| `LoxGrammar.ParseOperand` | src/JLox/Parser.java:43-92 | the same for the operand each binary level calls |
| `LoxGrammar.LevelTail` | src/JLox/Parser.java:46-52 | the loop of a level never moves the cursor back or off the list |
| `LoxGrammar.ParseUnary` | src/JLox/Parser.java:95-103 | `unary` consumes at least one token on success and fails inside the list |
| `LoxGrammar.ParsePrimary` | src/JLox/Parser.java:106-122 | `primary` consumes at least one token on success and fails inside the list |
| `LoxGrammar.ParseGroup` | src/JLox/Parser.java:115-119 | the group case consumes at least one token on success and fails inside the list |
| `LoxGrammar.PrimaryFailsAtCursor` | src/JLox/Parser.java:106-122 | `primary` fails at the cursor itself exactly when the token there is none of `NUMBER`, `STRING`, `FALSE`, `TRUE`, `NIL`, '(' |
| `LoxGrammar.SynchronizeEnd` | src/JLox/Parser.java:161-178 | `synchronize` stops on the list, at or after the cursor |
| `LoxGrammar.SynchronizeStops` | src/JLox/Parser.java:161-178 | `synchronize` passes only tokens that are neither ';' nor statement keywords nor `EOF`, and stops just after the first ';', before a statement keyword, or on `EOF` |
| `LoxGrammar.LevelShaped` | src/JLox/Parser.java:43-92 | every tree a binary level builds is well shaped and binds at least as tightly as that level |
| `LoxGrammar.OperandShaped` | src/JLox/Parser.java:43-92 | an operand of a level binds strictly more tightly than the level |
| `LoxGrammar.TailShaped` | src/JLox/Parser.java:46-52 | the loop folds to the left: the left operand binds at least as tightly as the level, the right strictly more |
| `LoxGrammar.UnaryShaped` | src/JLox/Parser.java:95-103 | `unary` builds '!' or '-' over another unary, or a primary |
| `LoxGrammar.PrimaryShaped` | src/JLox/Parser.java:106-122 | `primary` builds a literal or a group of a well-shaped tree |
| `LoxGrammar.ParseShaped` | src/JLox/Parser.java:29-35 | whatever `parse` returns respects precedence and left associativity |
| `LoxGrammar.TailStep` | src/JLox/Parser.java:46-50 | one pass of a level's loop folds the operand it read in on the right of what was built |
| `LoxGrammar.TailStop` | src/JLox/Parser.java:46-52 | the loop ends, returning what it built, at a token that is not one of the level's operators |
| `LoxGrammar.TailRoundTrip` | src/JLox/Parser.java:46-52 | the loop reads the rest of a left-associated operator chain back into the same tree |
| `LoxGrammar.OperandRoundTrip` | src/JLox/Parser.java:43-92 | an operand reads a tree that binds more tightly than the level from its own tokens |
| `LoxGrammar.LevelRoundTrip` | src/JLox/Parser.java:43-92 | a level reads any well-shaped tree binding at least as tightly from its own tokens, up to a token that ends the level |
| `LoxGrammar.UnaryRoundTrip` | src/JLox/Parser.java:95-103 | `unary` reads a well-shaped unary, literal or group from its own tokens |
| `LoxGrammar.LiteralRead` | src/JLox/Parser.java:106-113 | `primary` reads a literal's token as that literal |
| `LoxGrammar.GroupRead` | src/JLox/Parser.java:115-119 | '(' expression `RIGHT_BRACE` reads as the group of the expression |
| `LoxGrammar.PrimaryRoundTrip` | src/JLox/Parser.java:106-119 | `primary` reads a literal or a group closed by `RIGHT_BRACE` from its own tokens |
| `LoxGrammar.ParseRoundTrip` | src/JLox/Parser.java:29-35 | `parse` returns every well-shaped tree from its own tokens, whatever non-operator tokens follow; `EOF` is not demanded |
| `LoxGrammar.LevelReadsAlike` | src/JLox/Parser.java:43-92 | a binary level gives the same result on two token lists that read alike: the same kinds, the same `NUMBER` and `STRING` literals and the same operator tokens, whatever the lines and lexemes |
| `LoxGrammar.OperandReadsAlike` | src/JLox/Parser.java:43-92 | the same for the operand of a level |
| `LoxGrammar.TailReadsAlike` | src/JLox/Parser.java:46-52 | the same for a level's loop: both fold in the same operator token |
| `LoxGrammar.UnaryReadsAlike` | src/JLox/Parser.java:95-103 | the same for `unary` |
| `LoxGrammar.PrimaryReadsAlike` | src/JLox/Parser.java:106-122 | the same for `primary`: a literal is read from its kind and, for `NUMBER` and `STRING`, its literal value |
| `LoxGrammar.GroupReadsAlike` | src/JLox/Parser.java:115-119 | the same for the group case: the closing token is checked by kind |
| `LoxGrammar.ParseReadsTree` | src/JLox/Parser.java:29-35 | `parse` returns a well-shaped tree from any token list that reads as its tokens, on any lines and with any lexemes, followed by a token that continues no operator chain |
| `LoxGrammar.ReadsFromJoin` | src/JLox/Parser.java:43-122 | reading two token runs one after the other reads their concatenation |
| `LoxGrammar.LevelSpelled` | src/JLox/Parser.java:43-92 | a binary level that succeeds read exactly the tokens of the tree it built, and stops at a token that continues no chain of that level or tighter |
| `LoxGrammar.OperandSpelled` | src/JLox/Parser.java:43-92 | the same for the operand of a level, which stops at a token that continues no chain tighter than the level |
| `LoxGrammar.TailSpelled` | src/JLox/Parser.java:46-52 | each pass of a level's loop reads the operator token and the operand's tokens after the left operand's, and the loop stops only where no operator of the level follows |
| `LoxGrammar.UnarySpelled` | src/JLox/Parser.java:95-103 | `unary` that succeeds read the prefix operator tokens and then the primary's |
| `LoxGrammar.PrimarySpelled` | src/JLox/Parser.java:106-122 | `primary` that succeeds read one literal token that spells its literal, or a whole group |
| `LoxGrammar.GroupSpelled` | src/JLox/Parser.java:115-119 | the group case read '(', the inner tree's tokens, and the closing token of kind `RIGHT_BRACE` |
| `LoxGrammar.ParseSpellsTree` | src/JLox/Parser.java:29-35 | whatever `parse` returns is a well-shaped tree whose tokens the list starts with, followed by a token that continues no operator chain |
| `LoxGrammar.ParseCharacterized` | src/JLox/Parser.java:29-35 | on a list whose literal tokens carry literals of their kind, `parse` returns `e` exactly when `e` is well shaped and the list reads as `e`'s tokens followed by a token that continues no operator chain |
| `LoxGrammar.FirstPrimaryFails` | src/JLox/Parser.java:43-103 | a failure in the first primary aborts every level above it with the same report |
| `LoxGrammar.GroupClosedByParenRejected` | src/JLox/Parser.java:115-129 | '(' expression ')' is rejected: the report "Expect ')' after expression." is at the ')' and `parse` returns null |
| `LoxGrammar.LeftAssociative` | src/JLox/Parser.java:43-92 | `a op b op c` with operators of one level parses as `(a op b) op c`, for any literal tokens on any lines |
| `LoxGrammar.TighterBindsFirst` | src/JLox/Parser.java:43-92 | in `a op1 b op2 c` a tighter `op2` takes `b` as its left operand, for any literal tokens |
| `LoxGrammar.LooserBindsLast` | src/JLox/Parser.java:43-92 | in `a op1 b op2 c` a looser `op2` takes `a op1 b` as its left operand, for any literal tokens |
| `LoxGrammar.UnaryNests` | src/JLox/Parser.java:95-103 | prefix operators nest to the right: `- - 1` is `-(-1)`, for any literal token |
| `LoxParser.ScanFeedsParser` | src/JLox/Scanner.java:31-38 | a scan that does not throw gives a list ending in `EOF`, as the parser's constructor needs, whose `NUMBER` and `STRING` tokens carry literals of their kind, and whatever `parse` returns from it is a well-shaped tree spelled by the tokens the list starts with |
| `LoxParser.OperatorList` | src/JLox/Parser.java:46-85 | the candidates each level passes to `match` are exactly that level's operator set |
| `LoxParser.Parser.constructor` | src/JLox/Parser.java:25-27 | a new parser holds the token list with the cursor at 0 and no reports |
| `LoxParser.Parser.Parse` | src/JLox/Parser.java:29-35 | returns the tree `LoxGrammar.Parse` gives, or `None` exactly when one error was reported |
| `LoxParser.Parser.Expression` | src/JLox/Parser.java:38-40 | returns what `LoxGrammar.ParseExpression` gives, with the cursor after it, or `None` after one report at the failing token |
| `LoxParser.Parser.BinaryLevel` | src/JLox/Parser.java:43-92 | each of `equality` … `multiplication` returns what `LoxGrammar.ParseLevel` gives, in the same sense |
| `LoxParser.Parser.LevelLoop` | src/JLox/Parser.java:46-51 | the `while (match(...))` loop of a level returns what `LoxGrammar.LevelTail` gives |
| `LoxParser.Parser.Operand` | src/JLox/Parser.java:43-92 | the operand call of each level returns what `LoxGrammar.ParseOperand` gives |
| `LoxParser.Parser.Unary` | src/JLox/Parser.java:95-103 | returns what `LoxGrammar.ParseUnary` gives |
| `LoxParser.Parser.Primary` | src/JLox/Parser.java:106-122 | returns what `LoxGrammar.ParsePrimary` gives: a `NUMBER` or `STRING` token's own literal, or what the remaining tries give |
| `LoxParser.Parser.KeywordOrGroup` | src/JLox/Parser.java:111-121 | on any other token, returns what `LoxGrammar.ParsePrimary` gives: the fixed literal of `false`, `true` or `nil`, the group, or "Expect expression" reported at the cursor |
| `LoxParser.Parser.Group` | src/JLox/Parser.java:115-119 | returns what `LoxGrammar.ParseGroup` gives: the group, or a report where `RIGHT_BRACE` was expected |
| `LoxParser.Parser.Consume` | src/JLox/Parser.java:125-129 | consumes and returns the token when `check` passes; otherwise reports the message at the cursor and leaves it where it is |
| `LoxParser.Parser.Error` | src/JLox/Parser.java:132-135 | appends the report to the log |
| `LoxParser.Parser.Synchronize` | src/JLox/Parser.java:161-178 | moves the cursor to `LoxGrammar.SynchronizeEnd` and reports nothing |
| `LoxParser.Parser.Match` | src/JLox/Parser.java:182-191 | advances by exactly one when the token under the cursor is one of the candidates and not `EOF`, and otherwise stays |
| `LoxParser.Parser.Check` | src/JLox/Parser.java:193-196 | true exactly when the token under the cursor has the kind asked for and that kind is not `EOF`, so `check(EOF)` is always false; when true, the final `EOF` is still ahead |
| `LoxParser.Parser.Advance` | src/JLox/Parser.java:198-201 | moves one token forward unless on `EOF`, and returns the token before the cursor |

## Where the code departs from its evident intent

These are modelled as the code is written:

- **Grouping closes with `RIGHT_BRACE`.** The grammar comment says '('
  expression ')'. `primary` calls `consume(RIGHT_BRACE, …)`
  (`src/JLox/Parser.java:117`), so `( 1 )` is a parse error reported at the
  ')'. See `LoxGrammar.GroupClosedByParenRejected`. `LoxGrammar.Unparse`
  writes a group as '(' … '}', and the round-trip lemmas use that form.
- **An unterminated string does not give a token.** The evident intent is a
  report and then a scan that goes on. In both scanners `string()` reports the error and then calls `advance()` at the end of the
  text, which throws (`src/JLox/Scanner.java:144-149`,
  `src/Scanner.java:110-115`). The scan ends there with no token list. See
  `Lexing.UnterminatedString` and `EarlyLexicon.RunCrashesOnlyOnUnclosedQuote`.
- **Newlines in block comments are not counted.** Line numbers after a block
  comment that holds newlines are lower than the text's
  (`src/JLox/Scanner.java:123`). See `LoxLexicon.BlockCommentKeepsLine`.
- **An unclosed block comment is silently accepted** at the end of the text.
- **The two scanners' messages differ.** The full scanner reports
  "Unexpected character.", the earlier one "unexpected character.".
- **`parse` does not demand `EOF`.** It returns the first expression and
  leaves what follows unread (`LoxGrammar.ParseRoundTrip`).
- **`synchronize` falls through.** The `SEMICOLON` case falls through to
  `return`, so it stops just after the ';' and in front of a statement
  keyword. Nothing in the parser calls it.

Structure differs from the Java in a few places. Each split keeps the Java
control flow; it only gives a branch or a loop its own contract:

- In `scanToken` of both scanners, the '/' case is `SlashOrComment`. The
  `default` case of the full scanner is `OtherCharacter`.
- The four binary levels `equality`, `comparison`, `addition` and
  `multiplication` share one method, `BinaryLevel(k)`, with levels 0 to 3.
  The level's operator list comes from `OperatorList(k)`. The call to the
  next level is `Operand(k)`. The `while (match(...))` loop is `LevelLoop`.
- The tries of `primary` after the `NUMBER`/`STRING` one are
  `KeywordOrGroup`, and its '(' branch is `Group`.
- The keyword map and the helpers `isDigit`, `isAlpha` and `isAlphaNumeric`
  are members of the module `LoxLexicon`, not of the class. They read no
  field.
- The two `addToken` overloads are one method, `AddToken(kind, literal)`.
  The one-argument form is a call with `Null`.
- The `ParseError` exception class is not a class here. Throwing it is a
  `None` result. The Dafny datatype `ParseError` is the report passed to the
  error sink.

## Left out

- `Double.parseDouble` (`src/JLox/Scanner.java:166`): floating point. A
  number's literal is its lexeme, `Num(digits)`.
- `JLox.error` is a call into a class that is not part of this model. Its
  printing and its error flag are left out. Reports are appended to the ghost
  `errors` log.
- Exceptions are results, not unwinding. `ParseError` is `None`. The
  `StringIndexOutOfBoundsException` after an unterminated string is a `Crash`
  outcome.
- The `Token`, `TokenType`, `Expr` and `JLox` classes are not part of this
  model. They are plain datatypes, and the keyword `HashMap` is a `map`.
- Calling `scanTokens` twice on one scanner would append a second `EOF`.
  The exactly-one-`EOF` lemmas are stated for a scan by a new scanner.
  `ScanTokens` itself is specified from whatever state it starts in.
- Texts are sequences of Unicode code points. Java strings are UTF-16 code
  units, and surrogate pairs and lone surrogates are not modelled: a
  character outside the Basic Multilingual Plane is one `char` here and two
  for `charAt`, so positions and lexemes of text after such a character differ.
- Java `int` overflow of `current` and `line` on texts over 2^31 characters
  is not modelled. Integers are unbounded.
- Stack depth is not modelled. The Java parser recurses through
  `expression`, `unary` and `primary`, so deeply nested input, such as
  many '(' or many '-' in a row, throws `StackOverflowError`. The model's
  recursion has no depth limit and parses such input.
- `LoxParser.Parser.Advance` requires the cursor to be past the first token
  or off `EOF`. On a list that is only `EOF`, `previous()` would read index
  -1 and throw. No caller reaches that case: `match`, `consume` and
  `synchronize` advance only off `EOF`.
- `LoxScanner.Scanner.Advance` and `EarlyScanner.Scanner.Advance` require a
  character to be left. The one call that reads past the end, in `string()`,
  is modelled as the `Crash` outcome instead of a call.
- `isAtEnd`, `peek`, `peekNext`, `isDigit`, `isAlpha` and `isAlphaNumeric`
  are functions with no contract of their own. The parser's `isAtEnd`, `peek`
  and `previous` are the same. Each is used where the Java uses it.
- Statement grammar, evaluation, the REPL and file I/O are not part of these
  files.
