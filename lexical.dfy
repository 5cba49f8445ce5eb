/** The lexical grammar of Lox as pure functions: what one lexeme starting at a given
    index is, and what the whole scan of a source text produces. The imperative
    scanner in module LoxScanner is proved to compute exactly these. */
module Lexical {
  import opened Tokens

  // ---------------------------------------------------------------------------
  // Character classes (ASCII ranges only)

  predicate IsDigit(c: char): (b: bool)
    ensures b ==> c != '.' && c != '\0'
  {
    '0' <= c <= '9'
  }

  /** Letters and underscore; no digit is one. */
  predicate IsAlpha(c: char): (b: bool)
    ensures b ==> !IsDigit(c)
  {
    ('a' <= c <= 'z') || ('A' <= c <= 'Z') || c == '_'
  }

  /** The characters of an identifier. The characters that end the other runs, and
      the end-of-text sentinel, are not among them. */
  predicate IsAlphaNumeric(c: char): (b: bool)
    ensures b ==> c != '\0' && c != '\n' && c != '"' && c != '.'
  {
    IsAlpha(c) || IsDigit(c)
  }

  /** The runs of characters the scanner consumes in a loop: digits, identifier
      characters, a comment's text (up to a newline) and a string's text (up to a quote). */
  datatype Run = Digits | Word | ToLineEnd | ToQuote

  predicate Continues(r: Run, c: char) {
    match r
    case Digits => IsDigit(c)
    case Word => IsAlphaNumeric(c)
    case ToLineEnd => c != '\n'
    case ToQuote => c != '"'
  }

  // ---------------------------------------------------------------------------
  // Fixed spellings and the keyword table

  /** The sixteen reserved words and their kinds; nothing else is a keyword. */
  const Keywords: map<string, TokenType> := map[
    "and" := AND, "class" := CLASS, "else" := ELSE, "false" := FALSE,
    "for" := FOR, "fun" := FUN, "if" := IF, "nil" := NIL,
    "or" := OR, "print" := PRINT, "return" := RETURN, "super" := SUPER,
    "this" := THIS, "true" := TRUE, "var" := VAR, "while" := WHILE
  ]

  /** The only lexeme a punctuation, operator or keyword token can have;
      the empty string for the four kinds whose lexeme varies or is empty. */
  function Spelling(k: TokenType): string {
    match k
    case LEFT_PAREN => "("
    case RIGHT_PAREN => ")"
    case LEFT_BRACE => "{"
    case RIGHT_BRACE => "}"
    case COMMA => ","
    case DOT => "."
    case MINUS => "-"
    case PLUS => "+"
    case SEMICOLON => ";"
    case SLASH => "/"
    case STAR => "*"
    case BANG => "!"
    case BANG_EQUAL => "!="
    case EQUAL => "="
    case EQUAL_EQUAL => "=="
    case GREATER => ">"
    case GREATER_EQUAL => ">="
    case LESS => "<"
    case LESS_EQUAL => "<="
    case AND => "and"
    case CLASS => "class"
    case ELSE => "else"
    case FALSE => "false"
    case FUN => "fun"
    case FOR => "for"
    case IF => "if"
    case NIL => "nil"
    case OR => "or"
    case PRINT => "print"
    case RETURN => "return"
    case SUPER => "super"
    case THIS => "this"
    case TRUE => "true"
    case VAR => "var"
    case WHILE => "while"
    case _ => ""
  }

  predicate IsKeywordKind(k: TokenType) {
    k in {AND, CLASS, ELSE, FALSE, FUN, FOR, IF, NIL, OR, PRINT, RETURN, SUPER, THIS, TRUE, VAR, WHILE}
  }

  // ---------------------------------------------------------------------------
  // Runs of characters and line counting

  /** The end of the maximal run of r's characters that starts at i. */
  function RunEnd(s: seq<char>, i: nat, r: Run): (j: nat)
    requires i <= |s|
    ensures i <= j <= |s|
    ensures forall k :: i <= k < j ==> Continues(r, s[k])
    ensures j == |s| || !Continues(r, s[j])
    decreases |s| - i
  {
    if i == |s| || !Continues(r, s[i]) then i else RunEnd(s, i + 1, r)
  }

  /** The number of newline characters in s. */
  function Newlines(s: seq<char>): nat {
    multiset(s)['\n']
  }

  /** The number of newline characters in s[a..b], counted left to right. */
  function NewlinesIn(s: seq<char>, a: nat, b: nat): (n: nat)
    requires a <= b <= |s|
    ensures n <= b - a
    ensures n == 0 <==> forall k :: a <= k < b ==> s[k] != '\n'
    decreases b - a
  {
    if a == b then 0 else NewlinesIn(s, a, b - 1) + if s[b - 1] == '\n' then 1 else 0
  }

  // ---------------------------------------------------------------------------
  // Shapes of lexemes

  predicate AllDigits(x: string) { forall k :: 0 <= k < |x| ==> IsDigit(x[k]) }

  /** A digit run, optionally followed by '.' and a second, non-empty digit run. */
  predicate IsNumberLexeme(x: string) {
    (|x| > 0 && AllDigits(x)) ||
    (exists k :: 0 < k < |x| - 1 && x[k] == '.' && AllDigits(x[..k]) && AllDigits(x[k + 1..]))
  }

  /** A letter or underscore followed by letters, digits and underscores. */
  predicate IsIdentifier(x: string) {
    |x| > 0 && IsAlpha(x[0]) && forall k :: 0 <= k < |x| ==> IsAlphaNumeric(x[k])
  }

  /** Two quotes around any text without a quote. */
  predicate IsStringLexeme(x: string) {
    |x| >= 2 && x[0] == '"' && x[|x| - 1] == '"' && forall k :: 0 < k < |x| - 1 ==> x[k] != '"'
  }

  function DigitValue(c: char): nat {
    if IsDigit(c) then c as int - '0' as int else 0
  }

  /** The decimal value of a digit string. */
  function DigitsValue(x: string): nat {
    if x == [] then 0 else DigitsValue(x[..|x| - 1]) * 10 + DigitValue(x[|x| - 1])
  }

  /** The exact value of a number lexeme: its digits without the dot, scaled by
      the number of fraction digits. */
  function NumberLiteral(x: string): (r: Literal)
    ensures r.Num? && r.scale <= |x|
    ensures AllDigits(x) ==> r == Num(DigitsValue(x), 0)
  {
    var d := RunEnd(x, 0, Digits);
    if d < |x| then Num(DigitsValue(x[..d] + x[d + 1..]), |x| - d - 1)
    else Num(DigitsValue(x), 0)
  }

  /** What a token with this kind may look like: its lexeme has the kind's shape and
      its literal is the one that lexeme denotes. */
  predicate WellFormed(t: Token) {
    match t.kind
    case IDENTIFIER => IsIdentifier(t.lexeme) && t.lexeme !in Keywords && t.literal == NoLiteral
    case STRING => IsStringLexeme(t.lexeme) && t.literal == Str(t.lexeme[1..|t.lexeme| - 1])
    case NUMBER => IsNumberLexeme(t.lexeme) && t.literal == NumberLiteral(t.lexeme)
    case EOF => t.lexeme == "" && t.literal == NoLiteral
    case _ => t.lexeme == Spelling(t.kind) && t.literal == NoLiteral
  }

  // ---------------------------------------------------------------------------
  // One lexeme

  /** What one pass of the main loop does with the lexeme starting at a given index. */
  datatype Outcome =
    | Emit(kind: TokenType, literal: Literal)  // one token
    | Skip                                     // whitespace, newline or comment
    | Report(message: string)                  // one diagnostic, no token

  /** The lexeme ends at `end`; `line` is the line counter afterwards. */
  datatype Step = Step(end: nat, line: nat, outcome: Outcome)

  predicate NextIs(s: seq<char>, i: nat, c: char) {
    i + 1 < |s| && s[i + 1] == c
  }

  /** A one-character operator, or its two-character form when '=' follows. */
  function Operator(s: seq<char>, i: nat, line: nat, one: TokenType, two: TokenType): (st: Step)
    ensures st.line == line && (st.end == i + 1 || st.end == i + 2)
    ensures st.end == i + 2 <==> NextIs(s, i, '=')
    ensures st.outcome == Emit(if st.end == i + 2 then two else one, NoLiteral)
  {
    if NextIs(s, i, '=') then Step(i + 2, line, Emit(two, NoLiteral))
    else Step(i + 1, line, Emit(one, NoLiteral))
  }

  /** Where a number lexeme whose first digit run continues at k ends. */
  function NumberEnd(s: seq<char>, k: nat): (j: nat)
    requires k <= |s|
    ensures k <= j <= |s|
    ensures forall m :: k <= m < j ==> IsDigit(s[m]) || s[m] == '.'
    ensures j == |s| || !IsDigit(s[j])
  {
    var d := RunEnd(s, k, Digits);
    if d + 1 < |s| && s[d] == '.' && IsDigit(s[d + 1]) then RunEnd(s, d + 1, Digits) else d
  }

  /** A string literal whose opening quote is at i: up to and including the closing
      quote, or to the end of the text, which is reported. Newlines inside count. */
  function StringStep(s: seq<char>, i: nat, line: nat): (st: Step)
    requires i < |s|
    ensures i < st.end <= |s|
    ensures line <= st.line
  {
    var j := RunEnd(s, i + 1, ToQuote);
    var l := line + NewlinesIn(s, i + 1, j);
    if j == |s| then Step(j, l, Report("Unterminated string."))
    else Step(j + 1, l, Emit(STRING, Str(s[i + 1..j])))
  }

  /** A number literal whose first digit is at i. */
  function NumberStep(s: seq<char>, i: nat, line: nat): (st: Step)
    requires i < |s|
    ensures i < st.end <= |s|
    ensures st.line == line && st.outcome.Emit? && st.outcome.kind == NUMBER
    ensures st.end == |s| || !IsDigit(s[st.end])
  {
    var j := NumberEnd(s, i + 1);
    Step(j, line, Emit(NUMBER, NumberLiteral(s[i..j])))
  }

  /** An identifier or keyword whose first character is at i. */
  function IdentifierStep(s: seq<char>, i: nat, line: nat): (st: Step)
    requires i < |s|
    ensures i < st.end <= |s|
    ensures st.line == line && st.outcome.Emit? && st.outcome.literal == NoLiteral
    ensures forall m :: i < m < st.end ==> IsAlphaNumeric(s[m])
    ensures st.end == |s| || !IsAlphaNumeric(s[st.end])
    ensures s[i..st.end] !in Keywords ==> st.outcome.kind == IDENTIFIER
  {
    var j := RunEnd(s, i + 1, Word);
    var text := s[i..j];
    Step(j, line, Emit(if text in Keywords then Keywords[text] else IDENTIFIER, NoLiteral))
  }

  /** The lexeme that starts at index i, given the line counter there. */
  function Lex(s: seq<char>, i: nat, line: nat): (st: Step)
    requires i < |s|
    ensures i < st.end <= |s|
    ensures line <= st.line
  {
    match s[i]
    case '(' => Step(i + 1, line, Emit(LEFT_PAREN, NoLiteral))
    case ')' => Step(i + 1, line, Emit(RIGHT_PAREN, NoLiteral))
    case '{' => Step(i + 1, line, Emit(LEFT_BRACE, NoLiteral))
    case '}' => Step(i + 1, line, Emit(RIGHT_BRACE, NoLiteral))
    case ',' => Step(i + 1, line, Emit(COMMA, NoLiteral))
    case '.' => Step(i + 1, line, Emit(DOT, NoLiteral))
    case '-' => Step(i + 1, line, Emit(MINUS, NoLiteral))
    case '+' => Step(i + 1, line, Emit(PLUS, NoLiteral))
    case ';' => Step(i + 1, line, Emit(SEMICOLON, NoLiteral))
    case '*' => Step(i + 1, line, Emit(STAR, NoLiteral))
    case '!' => Operator(s, i, line, BANG, BANG_EQUAL)
    case '=' => Operator(s, i, line, EQUAL, EQUAL_EQUAL)
    case '<' => Operator(s, i, line, LESS, LESS_EQUAL)
    case '>' => Operator(s, i, line, GREATER, GREATER_EQUAL)
    case '/' =>
      if NextIs(s, i, '/') then Step(RunEnd(s, i + 2, ToLineEnd), line, Skip)
      else Step(i + 1, line, Emit(SLASH, NoLiteral))
    case ' ' => Step(i + 1, line, Skip)
    case '\r' => Step(i + 1, line, Skip)
    case '\t' => Step(i + 1, line, Skip)
    case '\n' => Step(i + 1, line + 1, Skip)
    case '"' => StringStep(s, i, line)
    case c =>
      if IsDigit(c) then NumberStep(s, i, line)
      else if IsAlpha(c) then IdentifierStep(s, i, line)
      else Step(i + 1, line, Report("Unexpected character."))
  }

  /** The token a step adds to the output: none, or one whose lexeme is s[i..end]. */
  function Emitted(s: seq<char>, i: nat, st: Step): (r: seq<Token>)
    requires i <= st.end <= |s|
    ensures |r| <= 1 && (|r| == 1 <==> st.outcome.Emit?)
    ensures forall t :: t in r ==> t.lexeme == s[i..st.end] && t.line == st.line
  {
    if st.outcome.Emit? then [Token(st.outcome.kind, s[i..st.end], st.outcome.literal, st.line)] else []
  }

  /** The diagnostic a step reports: none, or one at the line counter after the step. */
  function Reported(st: Step): (r: seq<Diagnostic>)
    ensures |r| <= 1 && (|r| == 1 <==> st.outcome.Report?)
    ensures forall d :: d in r ==> d.line == st.line
  {
    if st.outcome.Report? then [Diagnostic(st.line, st.outcome.message)] else []
  }

  // ---------------------------------------------------------------------------
  // The whole scan

  /** Tokens and diagnostics produced from index i to the end (without EOF), and the
      line counter at the end. */
  datatype Scan = Scan(tokens: seq<Token>, errors: seq<Diagnostic>, line: nat)

  function LexFrom(s: seq<char>, i: nat, line: nat): (r: Scan)
    requires i <= |s|
    ensures line <= r.line
    ensures |r.tokens| + |r.errors| <= |s| - i
    decreases |s| - i
  {
    if i == |s| then Scan([], [], line)
    else
      var st := Lex(s, i, line);
      var rest := LexFrom(s, st.end, st.line);
      Scan(Emitted(s, i, st) + rest.tokens, Reported(st) + rest.errors, rest.line)
  }

  /** The token sequence of a whole source text: every lexeme's token, then EOF. */
  function TokensOf(s: seq<char>): (r: seq<Token>)
    ensures |r| >= 1 && r[|r| - 1].kind == EOF
  {
    var r := LexFrom(s, 0, 1);
    r.tokens + [Token(EOF, "", NoLiteral, r.line)]
  }

  /** The diagnostics reported while scanning a whole source text, in order. */
  function ErrorsOf(s: seq<char>): (r: seq<Diagnostic>)
    ensures |r| <= |s|
  {
    LexFrom(s, 0, 1).errors
  }
}
