# Lox scanner, modelled and verified in Dafny

This project models the scanner (lexer) of a TypeScript implementation of the Lox
language (`scanner.ts`). It proves the scanner correct against a reference
definition of the lexical grammar, and proves properties of that grammar.

The scanner is a cursor machine over an immutable source text. `start` marks the
first character of the lexeme being scanned and `current` the next unread
character. `line` is the line counter. Each pass of the main loop consumes one
lexeme, choosing a rule by its first character:

- punctuation;
- one- or two-character operators, using one character of lookahead;
- `//` comments;
- whitespace and newlines;
- string, number and identifier/keyword literals.

A character that no rule accepts is reported to the diagnostics reporter, and
scanning goes on. At the end an EOF token is appended.

## Layout

| file | module | contents |
|---|---|---|
| `tokens.dfy` | `Tokens` | the token kinds, literals, tokens and diagnostics |
| `lexical.dfy` | `Lexical` | the lexical grammar as pure functions (see below) |
| `properties.dfy` | `LexicalProperties` | lemmas about the grammar |
| `scanner.dfy` | `LoxScanner` | the class `Scanner` (see below) |
| `examples.dfy` | `ScanExamples` | whole scans of small concrete texts, worked step by step |

`lexical.dfy` holds these definitions:

- the character classes;
- the keyword table;
- `RunEnd`, the end of a maximal run of characters of one class;
- `Lex`, the single lexeme that starts at an index;
- `LexFrom`, `TokensOf` and `ErrorsOf`, the whole scan.

In `scanner.dfy`, the class `Scanner` has the fields and methods of the TypeScript
class. Every method is proved to do what `Lex` and `LexFrom` say.

Modelling choices:

- **Diagnostics.** A call to `error(line, message)` appends `Diagnostic(line,
  message)` to the ghost field `errors`.
- **Number literals.** A NUMBER token's literal is kept exactly, as `Num(mantissa,
  scale)`, meaning mantissa / 10^scale. `scanner.ts` uses `parseFloat` here.
- **Token kinds.** `token.ts` is not part of this model. `TokenType` lists the
  kinds the scanner uses, with the names it uses for them.
- **Digit loops.** The two digit loops of `number` are one method,
  `SkipDigits`, called twice.
- **The comment loop.** The comment loop of `scanToken` is the method
  `SkipComment`.
- **Peeking past the end.** `Peek` and `PeekNext` return the `'\0'` sentinel
  past the end, as `scanner.ts` does. Their contracts state that the sentinel is
  none of the characters the loops look for.

**Line of a multi-line string.** `scanner.ts` counts a string's newlines as it
reads them (scanner.ts:125), so a string records the line counter reached at its
*end*, not the line on which it starts. This holds for both outcomes:

- a terminated string's STRING token carries the line of its closing quote, since
  `addToken` runs after the loop (scanner.ts:134, 108);
- "Unterminated string." is reported at the line reached at the end of the text
  (scanner.ts:129).

The model follows the code. See `LexicalProperties.TerminatedString`,
`LexicalProperties.UnterminatedString` and `ScanExamples.Unterminated`.

## Model

| member | source | states |
|---|---|---|
| LoxScanner.Scanner.constructor | scanner.ts:29-31 | a new scanner holds the source with no tokens, no diagnostics, both cursors at 0 and line 1 |
| LoxScanner.Scanner.ScanTokens | scanner.ts:33-40 | the loop ends with `current` at the end of the source; the tokens appended are exactly `LexFrom`'s tokens from the old cursor, followed by one EOF token carrying the final line counter; the diagnostics appended are `LexFrom`'s; the result is the token list |
| LoxScanner.Scanner.IsAtEnd | scanner.ts:42-44 | for a valid scanner, true exactly when `current` has reached the end of the source |
| LoxScanner.Scanner.ScanToken | scanner.ts:46-99 | sets `start` to the old `current` and strictly advances `current`; the new `current`, `line`, token list and diagnostics are exactly those of `Lex` for the lexeme at the old cursor |
| LoxScanner.Scanner.SkipComment | scanner.ts:72-74 | a comment's text runs up to, not including, the next newline or the end of the source |
| LoxScanner.Scanner.Advance | scanner.ts:101-104 | consumes exactly one character and returns it |
| LoxScanner.Scanner.AddToken | scanner.ts:106-109 | appends one token whose lexeme is exactly `source[start..current]`, on the current line |
| LoxScanner.Scanner.Match | scanner.ts:111-116 | consumes the next character if and only if it exists and is the expected one; otherwise `current` is unchanged |
| LoxScanner.Scanner.Peek | scanner.ts:118-121 | the next character when there is one; past the end, a sentinel that is not a letter, digit, newline, quote or dot |
| LoxScanner.Scanner.String | scanner.ts:123-135 | the new cursor, line counter, token and diagnostics are those of `StringStep`: a STRING token whose literal is the text between the quotes, or one "Unterminated string." diagnostic at the end of the text; each newline inside is counted |
| LoxScanner.Scanner.Number | scanner.ts:141-148 | the cursor ends where `NumberEnd` says; one NUMBER token whose literal is the exact value of the lexeme |
| LoxScanner.Scanner.SkipDigits | scanner.ts:142-142 | consumes the maximal run of digits at the cursor |
| LoxScanner.Scanner.PeekNext | scanner.ts:150-153 | the character after the next one when there is one; otherwise a non-digit sentinel |
| LoxScanner.Scanner.Identifier | scanner.ts:155-161 | consumes the maximal `[A-Za-z0-9_]` run; one token whose kind is the keyword table's entry for the whole lexeme, or IDENTIFIER when the lexeme is not in the table |
| LoxScanner.ScanSource | scanner.ts:29-40 | a fresh scanner's `scanTokens` returns `TokensOf(source)` and reports `ErrorsOf(source)`; the last token is EOF with an empty lexeme, no literal and line 1 + the number of newlines in the source; no earlier token is EOF; every token is well formed |
| Lexical.RunEnd | scanner.ts:156-156 | the end of the maximal run of one character class from an index; the same loop shape is at scanner.ts lines 74, 124, 142 and 145 |
| Lexical.Lex | scanner.ts:46-99 | one lexeme always consumes at least one character, and never moves the line counter back |
| Lexical.StringStep | scanner.ts:123-135 | a string lexeme extends past its opening quote, and the line counter only grows |
| Lexical.IsDigit | scanner.ts:137-139 | a digit is neither the decimal point nor the end-of-text sentinel, so both digit loops stop at either |
| Lexical.IsAlpha | scanner.ts:163-165 | letters and `_`; no digit is one, so the dispatch of scanner.ts:90-93 sends a character to at most one of number and identifier |
| Lexical.IsAlphaNumeric | scanner.ts:167-169 | the characters of an identifier; the end-of-text sentinel, newline, quote and dot are not among them |
| Lexical.NewlinesIn | scanner.ts:124-127 | the string loop's left-to-right newline count: at most the length of the slice, and zero exactly when the slice holds no newline |
| Lexical.NumberLiteral | scanner.ts:147-147 | stands in for `parseFloat`: always a number, with no more fraction digits than the lexeme has characters; an all-digit lexeme is its integer value with no fraction (the fractional case is `FractionValue`) |
| Lexical.Operator | scanner.ts:59-69 | a one- or two-character operator: two characters exactly when `=` follows, with the two-character kind then and the one-character kind otherwise; the line does not move |
| Lexical.NumberEnd | scanner.ts:142-146 | where a number ends: within the text, everything consumed is a digit or the dot, and the next character is not a digit |
| Lexical.NumberStep | scanner.ts:141-147 | `number()` as a step: one NUMBER token of at least one character, not followed by a digit, with the line unchanged |
| Lexical.IdentifierStep | scanner.ts:155-160 | `identifier()` as a step: the maximal run of identifier characters, one token with no literal and the line unchanged, IDENTIFIER whenever the lexeme is not in the keyword table |
| Lexical.Emitted | scanner.ts:106-109 | `addToken`: at most one token, exactly when the step emits one; its lexeme is the text from the lexeme's start to the step's end, and its line is the line counter after the step |
| Lexical.Reported | scanner.ts:94-96 | the `error` calls (here and at scanner.ts:129): at most one diagnostic, exactly when the step reports one, at the line counter after the step |
| Lexical.LexFrom | scanner.ts:34-37 | the main loop from an index: the line never goes back, and each character yields at most one token or diagnostic |
| Lexical.TokensOf | scanner.ts:33-40 | a whole scan's tokens: never empty, and the last is EOF (`EofTokenLast` gives the rest) |
| Lexical.ErrorsOf | scanner.ts:33-40 | a whole scan's diagnostics: at most one per character of the source |
| LexicalProperties.RunEndAt | scanner.ts:156-156 | a run that stops at `j`, at the end of the text or at a character outside the class, has `RunEnd` equal to `j`: the loops stop exactly at `RunEnd` |
| LexicalProperties.LexString | scanner.ts:86-88 | a lexeme starting with `"` is a string |
| LexicalProperties.LexNumber | scanner.ts:90-91 | a lexeme starting with a digit is a number |
| LexicalProperties.LexIdentifier | scanner.ts:92-93 | a lexeme starting with a letter or `_` is an identifier or keyword |
| LexicalProperties.NewlinesInCounts | scanner.ts:124-127 | counting newlines one by one, as the string loop does, gives the number of newlines in the slice |
| LexicalProperties.NumberEndAt | scanner.ts:142-146 | a number ends after a second digit run exactly when `.` and a digit follow the first run |
| LexicalProperties.NumberCharacters | scanner.ts:141-146 | a number lexeme holds only digits and `.` |
| LexicalProperties.LexKeepsLine | scanner.ts:71-82 | apart from strings and the newline character, no lexeme moves the line counter or spans a newline; in particular a comment never consumes its newline |
| LexicalProperties.StringCountsNewlines | scanner.ts:124-127 | a string moves the line counter on by exactly the number of newlines it spans |
| LexicalProperties.LexCountsNewlines | scanner.ts:83-85 | after any lexeme, the line counter has grown by exactly the number of newlines in the lexeme |
| LexicalProperties.LexFromCountsNewlines | scanner.ts:33-37 | scanning from an index moves the line counter on by exactly the number of newlines in the rest of the text: each newline is counted once |
| LexicalProperties.ScanStep | scanner.ts:34-37 | one pass of the main loop extends the tokens and diagnostics so far towards the whole scan from the loop's start, with the same final line |
| LexicalProperties.KeywordWords | scanner.ts:10-27 | the keyword table holds the sixteen reserved words and no other key |
| LexicalProperties.KeywordEntry | scanner.ts:10-27 | each keyword kind's spelling is in the table and maps back to that kind |
| LexicalProperties.KeywordWord | scanner.ts:10-27 | each key of the table maps to a keyword kind that it spells |
| LexicalProperties.LongWordNotKeyword | scanner.ts:10-27 | no word longer than six characters is a keyword |
| LexicalProperties.KeywordShape | scanner.ts:10-27 | every keyword is spelled like an identifier |
| LexicalProperties.KeywordsAreSpellings | scanner.ts:10-27 | every entry of the table maps a keyword kind's spelling to that kind |
| LexicalProperties.SpellingsAreKeywords | scanner.ts:10-27 | every keyword kind's spelling is in the table; with the row above, the table is exactly the keyword kinds' spellings |
| LexicalProperties.LexNeverEof | scanner.ts:46-99 | no lexeme yields an EOF token |
| LexicalProperties.LexFromNoEof | scanner.ts:33-37 | the main loop yields no EOF token |
| LexicalProperties.EofTokenLast | scanner.ts:38-39 | a scan ends with exactly one EOF token: empty lexeme, no literal, line 1 + the number of newlines in the source; no earlier token is EOF |
| LexicalProperties.FractionValue | scanner.ts:147-147 | the value of digits, a dot and digits is the digits on both sides read as one integer, over 10 to the number of fraction digits |
| LexicalProperties.NumberShape | scanner.ts:141-147 | a number lexeme is a digit run, optionally followed by `.` and a non-empty digit run |
| LexicalProperties.StringWellFormed | scanner.ts:132-134 | a STRING token's lexeme is two quotes around quote-free text, and its literal is that text without the quotes |
| LexicalProperties.IdentifierWellFormed | scanner.ts:155-160 | an identifier token's lexeme has identifier shape; a lexeme in the keyword table gets its keyword kind, and IDENTIFIER is used only for lexemes that are not keywords |
| LexicalProperties.SymbolWellFormed | scanner.ts:49-77 | a punctuation or operator token's lexeme is exactly its kind's spelling |
| LexicalProperties.LexWellFormed | scanner.ts:46-99 | every token a lexeme yields is well formed |
| LexicalProperties.LexFromWellFormed | scanner.ts:33-37 | every token the main loop yields is well formed |
| LexicalProperties.TokensWellFormed | scanner.ts:33-40 | every token of a scan, EOF included, is well formed |
| LexicalProperties.IdentifierAlone | scanner.ts:155-160 | an identifier-shaped text, scanned alone, is one lexeme: its keyword kind or IDENTIFIER |
| LexicalProperties.StringAlone | scanner.ts:123-134 | a string lexeme, scanned alone, is one STRING lexeme with the text between the quotes |
| LexicalProperties.NumberAlone | scanner.ts:141-147 | a number-shaped text, scanned alone, is one NUMBER lexeme with that text's value |
| LexicalProperties.KeywordAlone | scanner.ts:155-160 | a keyword's spelling, scanned alone, is one token of that keyword's kind |
| LexicalProperties.PunctuationAlone | scanner.ts:49-58 | a punctuation spelling, scanned alone, is one token of its kind |
| LexicalProperties.OperatorAlone | scanner.ts:59-69 | `!`, `=`, `<` or `>` alone is one one-character operator token |
| LexicalProperties.TwoCharacterOperatorAlone | scanner.ts:59-69 | `!=`, `==`, `<=` or `>=` alone is one two-character operator token |
| LexicalProperties.RescanFixed | scanner.ts:49-77 | a punctuation, operator or keyword token's lexeme, scanned alone, gives back its kind |
| LexicalProperties.RescanIdentifier | scanner.ts:155-160 | an IDENTIFIER token's lexeme, scanned alone, gives back an IDENTIFIER token |
| LexicalProperties.RescanString | scanner.ts:123-134 | a STRING token's lexeme, scanned alone, gives back the same literal |
| LexicalProperties.RescanNumber | scanner.ts:141-147 | a NUMBER token's lexeme, scanned alone, gives back the same value |
| LexicalProperties.RescanLexeme | scanner.ts:46-99 | the lexeme of any well-formed non-EOF token, scanned alone, is exactly one lexeme with the same kind and literal |
| LexicalProperties.RescanAlone | scanner.ts:33-40 | a well-formed token's lexeme, scanned as a whole text, gives that token and then EOF |
| LexicalProperties.RescanToken | scanner.ts:33-40 | round trip: the lexeme of any non-EOF token a scan produces, scanned alone, gives back the same kind, lexeme and literal, and then EOF |
| LexicalProperties.TwoCharacterOperators | scanner.ts:59-70 | `!`, `=`, `<` and `>` take a following `=` into one token (two characters exactly when `=` follows); the kind is the one the lexeme spells |
| LexicalProperties.CommentsAndSlash | scanner.ts:71-78 | `//` yields nothing and stops just before the next newline or at the end of the text, without moving the line; a lone `/` is SLASH |
| LexicalProperties.TerminatedString | scanner.ts:123-135 | a string closed at `j` is one STRING token ending after `j`; its literal is the text strictly between the quotes; its line counts the newlines inside |
| LexicalProperties.UnterminatedString | scanner.ts:128-131 | a string that is never closed reports "Unterminated string." once, at the line reached at the end of the text, yields no token, and ends the scan |
| LexicalProperties.UnexpectedCharacter | scanner.ts:94-96 | a character that no rule accepts is reported once as "Unexpected character.", yields no token, and is the only character consumed |
| LexicalProperties.NumberMaximalMunch | scanner.ts:141-146 | a number lexeme has number shape and cannot be extended by a following digit; a lexeme without a fraction is not followed by `.` and a digit |
| LexicalProperties.IdentifierMaximalMunch | scanner.ts:155-160 | an identifier lexeme has identifier shape and is not followed by a letter, digit or `_`; its kind is a keyword exactly when the whole lexeme is in the table, and otherwise IDENTIFIER |
| ScanExamples.BangEqual | scanner.ts:59-60 | `!=` scans as one BANG_EQUAL token, then EOF |
| ScanExamples.CommentThenNumber | scanner.ts:71-85 | `1//c\n2` scans as NUMBER 1 on line 1 and NUMBER 2 on line 2: the comment yields nothing and leaves its newline |
| ScanExamples.CommentThenNumberLexemes | scanner.ts:71-91 | the four lexemes of `1//c\n2`: a number, a comment that stops before the newline, the newline, a number on line 2 |
| ScanExamples.KeywordPrefix | scanner.ts:155-160 | `classroom` is one IDENTIFIER, not CLASS |
| ScanExamples.TrailingDot | scanner.ts:141-146 | `3.` scans as NUMBER 3 then DOT |
| ScanExamples.TrailingDotLexemes | scanner.ts:141-146 | in `3.`, the number stops before the dot, and the dot is DOT |
| ScanExamples.Fraction | scanner.ts:141-147 | `3.14` scans as one NUMBER with value 314 / 10^2 |
| ScanExamples.FractionLexeme | scanner.ts:141-147 | `3.14` is one lexeme of four characters with value 314 / 10^2 |
| ScanExamples.Unterminated | scanner.ts:123-131 | `"a\nb` yields only EOF and one "Unterminated string." diagnostic on line 2 |
| ScanExamples.UnterminatedScan | scanner.ts:123-131 | the main loop over `"a\nb` yields no token, one diagnostic on line 2, and ends on line 2 |
| ScanExamples.Unexpected | scanner.ts:94-96 | `@` yields only EOF and one "Unexpected character." diagnostic on line 1 |

## Left out

- `lox.ts` is not part of this model. It holds command-line handling, file reading with UTF-8 decoding, the interactive prompt and printing: all I/O.
- `errors.ts` is not part of this model beyond the call itself. It formats and prints a message; a call is modelled as appending to the ghost `errors` log.
- LoxScanner.Scanner.ScanTokens: returns the token list by value. `scanner.ts` returns its internal array (scanner.ts:39), which later calls append to; that aliasing is not modelled. The Lox driver calls it once per scanner.
- `token.ts` is not part of this model. Token kinds are defined from their uses in `scanner.ts`, and keyword kinds are assumed to be truthy values, as the `!type` test at scanner.ts:159 needs.
- Tokens.Literal: the NUMBER literal is an exact decimal `Num(mantissa, scale)`, not `parseFloat`'s IEEE-754 double (scanner.ts:147). Floating-point rounding is not modelled.
- Lexical.Keywords: the keyword table is exactly its sixteen entries. In `scanner.ts` it is a plain JavaScript object, so `this.keywords[text]` (scanner.ts:158) also finds names inherited from the object prototype, such as `toString` or `constructor`. For those names `scanner.ts` would give the token a kind that is not a `TokenType`. The model treats them as ordinary identifiers.
- JavaScript strings index UTF-16 code units; the model indexes a `seq<char>`, and classifies digits and letters by ASCII range only, as `scanner.ts` does.
- The optional column argument of the diagnostics reporter is never passed by the scanner and is not modelled.
