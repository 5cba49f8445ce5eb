/** The Lox scanner: a cursor over an immutable source text that appends tokens one
    lexeme at a time. Every method is proved to do what the lexical grammar in module
    Lexical says; the properties of that grammar are proved in LexicalProperties. */
module LoxScanner {
  import opened Tokens
  import opened Lexical
  import LexicalProperties

  class Scanner {
    const source: seq<char>
    var tokens: seq<Token>
    var start: nat    // index of the first character of the lexeme being scanned
    var current: nat  // index of the next unconsumed character
    var line: nat     // line counter, 1-based
    /** Every call of the diagnostics reporter, in order. */
    ghost var errors: seq<Diagnostic>

    ghost predicate Valid()
      reads this
    {
      start <= current <= |source|
    }

    constructor (source: seq<char>)
      ensures Valid() && this.source == source
      ensures tokens == [] && errors == [] && start == 0 && current == 0 && line == 1
    {
      this.source := source;
      tokens := [];
      start, current, line := 0, 0, 1;
      errors := [];
    }

    /** Scans the rest of the source and appends the EOF token, which carries the
        final line counter. `start` is left at the start of the last lexeme; its final
        value is not used and is not specified. */
    method ScanTokens() returns (result: seq<Token>)
      requires Valid()
      modifies this`tokens, this`start, this`current, this`line, this`errors
      ensures Valid() && current == |source|
      ensures var rest := LexFrom(source, old(current), old(line));
        && tokens == old(tokens) + rest.tokens + [Token(EOF, "", NoLiteral, rest.line)]
        && errors == old(errors) + rest.errors
        && line == rest.line
      ensures result == tokens
    {
      ghost var all := LexFrom(source, current, line);
      while !IsAtEnd()
        invariant Valid()
        invariant var rest := LexFrom(source, current, line);
          && tokens + rest.tokens == old(tokens) + all.tokens
          && errors + rest.errors == old(errors) + all.errors
          && rest.line == all.line
        decreases |source| - current
      {
        ghost var t0, e0, i0, l0 := tokens, errors, current, line;
        start := current;
        ScanToken();
        LexicalProperties.ScanStep(source, i0, l0, t0, e0);
      }
      tokens := tokens + [Token(EOF, "", NoLiteral, line)];
      result := tokens;
    }

    function IsAtEnd(): (b: bool)
      requires Valid()
      reads this
      ensures b <==> current == |source|
    {
      current >= |source|
    }

    /** Consumes one lexeme starting at `current` (== `start`). */
    method ScanToken()
      requires Valid() && start == current < |source|
      modifies this`current, this`line, this`tokens, this`errors
      ensures Valid() && start == old(current) < current
      ensures var st := Lex(source, old(current), old(line));
        && current == st.end && line == st.line
        && tokens == old(tokens) + Emitted(source, old(current), st)
        && errors == old(errors) + Reported(st)
    {
      var c := Advance();
      match c {
        case '(' => AddToken(LEFT_PAREN, NoLiteral);
        case ')' => AddToken(RIGHT_PAREN, NoLiteral);
        case '{' => AddToken(LEFT_BRACE, NoLiteral);
        case '}' => AddToken(RIGHT_BRACE, NoLiteral);
        case ',' => AddToken(COMMA, NoLiteral);
        case '.' => AddToken(DOT, NoLiteral);
        case '-' => AddToken(MINUS, NoLiteral);
        case '+' => AddToken(PLUS, NoLiteral);
        case ';' => AddToken(SEMICOLON, NoLiteral);
        case '*' => AddToken(STAR, NoLiteral);
        case '!' =>
          var m := Match('=');
          AddToken(if m then BANG_EQUAL else BANG, NoLiteral);
        case '=' =>
          var m := Match('=');
          AddToken(if m then EQUAL_EQUAL else EQUAL, NoLiteral);
        case '<' =>
          var m := Match('=');
          AddToken(if m then LESS_EQUAL else LESS, NoLiteral);
        case '>' =>
          var m := Match('=');
          AddToken(if m then GREATER_EQUAL else GREATER, NoLiteral);
        case '/' =>
          var m := Match('/');
          if m {
            SkipComment();
          } else {
            AddToken(SLASH, NoLiteral);
          }
        case ' ' =>
        case '\r' =>
        case '\t' =>
        case '\n' =>
          line := line + 1;
        case '"' =>
          String();
        case _ =>
          if IsDigit(c) {
            Number();
          } else if IsAlpha(c) {
            Identifier();
          } else {
            errors := errors + [Diagnostic(line, "Unexpected character.")];
          }
      }
    }

    /** Consumes a comment's text: up to the next newline, which is left. */
    method SkipComment()
      requires Valid()
      modifies this`current
      ensures Valid() && current == RunEnd(source, old(current), ToLineEnd)
    {
      while Peek() != '\n' && !IsAtEnd()
        invariant Valid() && old(current) <= current
        invariant forall k :: old(current) <= k < current ==> source[k] != '\n'
        decreases |source| - current
      {
        var _ := Advance();
      }
      LexicalProperties.RunEndAt(source, old(current), current, ToLineEnd);
    }

    /** Consumes the next character and returns it. */
    method Advance() returns (c: char)
      requires Valid() && current < |source|
      modifies this`current
      ensures Valid() && current == old(current) + 1 && c == source[old(current)]
    {
      current := current + 1;
      c := source[current - 1];
    }

    /** Appends a token whose lexeme is the text from `start` to `current`. */
    method AddToken(kind: TokenType, literal: Literal)
      requires Valid()
      modifies this`tokens
      ensures tokens == old(tokens) + [Token(kind, source[start..current], literal, line)]
    {
      var text := source[start..current];
      tokens := tokens + [Token(kind, text, literal, line)];
    }

    /** Consumes the next character only if it is the expected one. */
    method Match(expected: char) returns (matched: bool)
      requires Valid()
      modifies this`current
      ensures Valid()
      ensures matched <==> old(current) < |source| && source[old(current)] == expected
      ensures current == if matched then old(current) + 1 else old(current)
    {
      if IsAtEnd() {
        return false;
      }
      if source[current] != expected {
        return false;
      }
      current := current + 1;
      return true;
    }

    /** The next character, or the sentinel '\0' at the end of the source. The
        sentinel is none of the characters the scanning loops look for. */
    function Peek(): (c: char)
      requires Valid()
      reads this
      ensures current < |source| ==> c == source[current]
      ensures current >= |source| ==> !IsAlphaNumeric(c) && c != '\n' && c != '"' && c != '.'
    {
      if IsAtEnd() then '\0' else source[current]
    }

    /** The character after the next one, or the sentinel '\0' past the end. */
    function PeekNext(): (c: char)
      reads this
      ensures current + 1 < |source| ==> c == source[current + 1]
      ensures current + 1 >= |source| ==> !IsDigit(c)
    {
      if current + 1 >= |source| then '\0' else source[current + 1]
    }

    /** Scans a string literal whose opening quote is at `start`. */
    method String()
      requires Valid() && current == start + 1 && source[start] == '"'
      modifies this`current, this`line, this`tokens, this`errors
      ensures Valid()
      ensures var st := StringStep(source, start, old(line));
        && current == st.end && line == st.line
        && tokens == old(tokens) + Emitted(source, start, st)
        && errors == old(errors) + Reported(st)
    {
      while Peek() != '"' && !IsAtEnd()
        invariant Valid() && start < current
        invariant forall k :: start + 1 <= k < current ==> source[k] != '"'
        invariant line == old(line) + NewlinesIn(source, start + 1, current)
        modifies this`current, this`line
        decreases |source| - current
      {
        if Peek() == '\n' {
          line := line + 1;
        }
        var _ := Advance();
      }
      LexicalProperties.RunEndAt(source, start + 1, current, ToQuote);
      if IsAtEnd() {
        errors := errors + [Diagnostic(line, "Unterminated string.")];
        return;
      }
      var _ := Advance();
      var value := source[start + 1..current - 1];
      AddToken(STRING, Str(value));
    }

    /** Scans a number literal whose first digit is at `start`. */
    method Number()
      requires Valid() && current == start + 1 && IsDigit(source[start])
      modifies this`current, this`tokens
      ensures Valid()
      ensures var st := NumberStep(source, start, line);
        && current == st.end
        && tokens == old(tokens) + Emitted(source, start, st)
    {
      SkipDigits();
      ghost var d := current;
      if Peek() == '.' && IsDigit(PeekNext()) {
        // Consume the "." and the fractional digits.
        var _ := Advance();
        SkipDigits();
      }
      LexicalProperties.NumberEndAt(source, start + 1, d, current);
      AddToken(NUMBER, NumberLiteral(source[start..current]));
    }

    /** Consumes the run of digits at `current`. */
    method SkipDigits()
      requires Valid()
      modifies this`current
      ensures Valid() && current == RunEnd(source, old(current), Digits)
    {
      while IsDigit(Peek())
        invariant Valid() && old(current) <= current
        invariant forall k :: old(current) <= k < current ==> IsDigit(source[k])
        decreases |source| - current
      {
        var _ := Advance();
      }
      LexicalProperties.RunEndAt(source, old(current), current, Digits);
    }

    /** Scans an identifier or keyword whose first character is at `start`. */
    method Identifier()
      requires Valid() && current == start + 1 && IsAlpha(source[start])
      modifies this`current, this`tokens
      ensures Valid()
      ensures var st := IdentifierStep(source, start, line);
        && current == st.end
        && tokens == old(tokens) + Emitted(source, start, st)
    {
      while IsAlphaNumeric(Peek())
        invariant Valid() && start < current
        invariant forall k :: start + 1 <= k < current ==> IsAlphaNumeric(source[k])
        modifies this`current
        decreases |source| - current
      {
        var _ := Advance();
      }
      LexicalProperties.RunEndAt(source, start + 1, current, Word);
      var text := source[start..current];
      var kind := if text in Keywords then Keywords[text] else IDENTIFIER;
      AddToken(kind, NoLiteral);
    }
  }

  /** Scans a whole source text with a fresh scanner: the public entry point. */
  method ScanSource(source: seq<char>) returns (tokens: seq<Token>, ghost errors: seq<Diagnostic>)
    ensures tokens == TokensOf(source) && errors == ErrorsOf(source)
    ensures |tokens| > 0 && tokens[|tokens| - 1] == Token(EOF, "", NoLiteral, 1 + Newlines(source))
    ensures forall k :: 0 <= k < |tokens| - 1 ==> tokens[k].kind != EOF
    ensures forall t :: t in tokens ==> WellFormed(t)
  {
    var scanner := new Scanner(source);
    tokens := scanner.ScanTokens();
    errors := scanner.errors;
    LexicalProperties.EofTokenLast(source);
    LexicalProperties.TokensWellFormed(source);
  }
}
