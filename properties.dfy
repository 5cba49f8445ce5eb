/** Properties of the lexical grammar in module Lexical: how the line counter tracks
    newlines, the EOF token, the shape of every token, maximal munch, and that every
    token's lexeme scans back to the same token. */
module LexicalProperties {
  import opened Tokens
  import opened Lexical

  // ---------------------------------------------------------------------------
  // Runs

  /** A run of r's characters from i that stops at j (the end of the text, or a
      character that does not continue the run) is the maximal run: RunEnd is j. */
  lemma {:induction false} RunEndAt(s: seq<char>, i: nat, j: nat, r: Run)
    requires i <= j <= |s|
    requires forall k :: i <= k < j ==> Continues(r, s[k])
    requires j == |s| || !Continues(r, s[j])
    ensures RunEnd(s, i, r) == j
    decreases j - i
  {
    if i < j {
      RunEndAt(s, i + 1, j, r);
    }
  }

  /** The three lexemes dispatched on a class of first characters. */
  lemma LexString(s: seq<char>, i: nat, line: nat)
    requires i < |s| && s[i] == '"'
    ensures Lex(s, i, line) == StringStep(s, i, line)
  {
  }

  lemma LexNumber(s: seq<char>, i: nat, line: nat)
    requires i < |s| && IsDigit(s[i])
    ensures Lex(s, i, line) == NumberStep(s, i, line)
  {
  }

  lemma LexIdentifier(s: seq<char>, i: nat, line: nat)
    requires i < |s| && IsAlpha(s[i])
    ensures Lex(s, i, line) == IdentifierStep(s, i, line)
  {
  }

  // ---------------------------------------------------------------------------
  // Line counting

  /** Counting newlines left to right, as the string loop does, counts them all. */
  lemma {:induction false} NewlinesInCounts(s: seq<char>, a: nat, b: nat)
    requires a <= b <= |s|
    ensures NewlinesIn(s, a, b) == Newlines(s[a..b])
    decreases b - a
  {
    if a < b {
      NewlinesInCounts(s, a, b - 1);
      assert s[a..b] == s[a..b - 1] + [s[b - 1]];
      assert multiset(s[a..b]) == multiset(s[a..b - 1]) + multiset{s[b - 1]};
    }
  }

  lemma NoNewlines(s: seq<char>, a: nat, b: nat)
    requires a <= b <= |s|
    requires forall k :: a <= k < b ==> s[k] != '\n'
    ensures Newlines(s[a..b]) == 0
  {
    assert '\n' !in s[a..b];
    assert '\n' !in multiset(s[a..b]);
  }

  lemma NewlinesSplit(s: seq<char>, a: nat, m: nat, b: nat)
    requires a <= m <= b <= |s|
    ensures Newlines(s[a..b]) == Newlines(s[a..m]) + Newlines(s[m..b])
  {
    assert s[a..b] == s[a..m] + s[m..b];
  }

  /** Where a number ends, given where its first digit run ends: after the second
      run when '.' and a digit follow the first, else right after the first. */
  lemma NumberEndAt(s: seq<char>, k: nat, d: nat, j: nat)
    requires k <= |s| && d == RunEnd(s, k, Digits)
    requires if d + 1 < |s| && s[d] == '.' && IsDigit(s[d + 1]) then j == RunEnd(s, d + 1, Digits) else j == d
    ensures NumberEnd(s, k) == j
  {
  }

  /** A number lexeme holds only digits and '.'. */
  lemma NumberCharacters(s: seq<char>, i: nat)
    requires i < |s| && IsDigit(s[i])
    ensures forall k :: i <= k < NumberEnd(s, i + 1) ==> IsDigit(s[k]) || s[k] == '.'
  {
    var d := RunEnd(s, i + 1, Digits);
    if d + 1 < |s| && s[d] == '.' && IsDigit(s[d + 1]) {
      var j := RunEnd(s, d + 1, Digits);
      assert forall k :: d + 1 <= k < j ==> IsDigit(s[k]);
    }
  }

  /** Apart from strings and the newline itself, no lexeme spans a newline or moves
      the line counter; in particular a comment stops before its newline. */
  lemma LexKeepsLine(s: seq<char>, i: nat, line: nat)
    requires i < |s| && s[i] != '"' && s[i] != '\n'
    ensures var st := Lex(s, i, line);
      && st.line == line
      && forall k :: i <= k < st.end ==> s[k] != '\n'
  {
    if IsDigit(s[i]) {
      LexNumber(s, i, line);
      NumberCharacters(s, i);
    } else if IsAlpha(s[i]) {
      LexIdentifier(s, i, line);
    }
  }

  /** A first character that is not a newline does not change the count. */
  lemma NewlinesDropFirst(s: seq<char>, a: nat, b: nat)
    requires a < b <= |s| && s[a] != '\n'
    ensures Newlines(s[a..b]) == Newlines(s[a + 1..b])
  {
    NewlinesSplit(s, a, a + 1, b);
    NoNewlines(s, a, a + 1);
  }

  /** A last character that is not a newline does not change the count. */
  lemma NewlinesDropLast(s: seq<char>, a: nat, b: nat)
    requires a < b <= |s| && s[b - 1] != '\n'
    ensures Newlines(s[a..b]) == Newlines(s[a..b - 1])
  {
    NewlinesSplit(s, a, b - 1, b);
    NoNewlines(s, b - 1, b);
  }

  /** A string moves the line counter on by the newlines it spans. */
  lemma StringCountsNewlines(s: seq<char>, i: nat, line: nat)
    requires i < |s| && s[i] == '"'
    ensures var st := StringStep(s, i, line); st.line == line + Newlines(s[i..st.end])
  {
    var j := RunEnd(s, i + 1, ToQuote);
    NewlinesInCounts(s, i + 1, j);
    if j < |s| {
      NewlinesDropLast(s, i + 1, j + 1);
      NewlinesDropFirst(s, i, j + 1);
    } else {
      NewlinesDropFirst(s, i, j);
    }
  }

  /** After one lexeme the line counter has grown by the number of newlines the
      lexeme spans: the newline case and the string loop count each newline once. */
  lemma LexCountsNewlines(s: seq<char>, i: nat, line: nat)
    requires i < |s|
    ensures var st := Lex(s, i, line); st.line == line + Newlines(s[i..st.end])
  {
    var st := Lex(s, i, line);
    if s[i] == '"' {
      LexString(s, i, line);
      StringCountsNewlines(s, i, line);
    } else if s[i] == '\n' {
      assert s[i..st.end] == ['\n'];
    } else {
      LexKeepsLine(s, i, line);
      NoNewlines(s, i, st.end);
    }
  }

  /** Scanning from i moves the line counter on by the newlines in the rest of the text. */
  lemma {:induction false} LexFromCountsNewlines(s: seq<char>, i: nat, line: nat)
    requires i <= |s|
    ensures LexFrom(s, i, line).line == line + Newlines(s[i..])
    decreases |s| - i
  {
    if i < |s| {
      var st := Lex(s, i, line);
      LexCountsNewlines(s, i, line);
      LexFromCountsNewlines(s, st.end, st.line);
      NewlinesSplit(s, i, st.end, |s|);
      assert s[i..|s|] == s[i..];
      assert s[st.end..|s|] == s[st.end..];
    }
  }

  // ---------------------------------------------------------------------------
  // The main loop

  /** One pass of the main loop: the tokens and diagnostics so far, plus those of the
      lexeme at i, plus those of the rest, are those so far plus those from i on. */
  lemma ScanStep(s: seq<char>, i: nat, line: nat, done: seq<Token>, reported: seq<Diagnostic>)
    requires i < |s|
    ensures var st := Lex(s, i, line); var r := LexFrom(s, st.end, st.line);
      && (done + Emitted(s, i, st)) + r.tokens == done + LexFrom(s, i, line).tokens
      && (reported + Reported(st)) + r.errors == reported + LexFrom(s, i, line).errors
      && r.line == LexFrom(s, i, line).line
  {
    var st := Lex(s, i, line);
    var r := LexFrom(s, st.end, st.line);
    assert (done + Emitted(s, i, st)) + r.tokens == done + (Emitted(s, i, st) + r.tokens);
    assert (reported + Reported(st)) + r.errors == reported + (Reported(st) + r.errors);
  }

  // ---------------------------------------------------------------------------
  // Keywords

  /** The table's entries, four reserved words at a time. The table is split into
      groups (here and in the First/Last lemmas below) only so that each proof looks
      up few entries at once; together they cover the whole table. */
  lemma LookupAndToFalse()
    ensures "and" in Keywords && Keywords["and"] == AND
    ensures "class" in Keywords && Keywords["class"] == CLASS
    ensures "else" in Keywords && Keywords["else"] == ELSE
    ensures "false" in Keywords && Keywords["false"] == FALSE
  {
  }

  lemma LookupForToNil()
    ensures "for" in Keywords && Keywords["for"] == FOR
    ensures "fun" in Keywords && Keywords["fun"] == FUN
    ensures "if" in Keywords && Keywords["if"] == IF
    ensures "nil" in Keywords && Keywords["nil"] == NIL
  {
  }

  lemma LookupOrToSuper()
    ensures "or" in Keywords && Keywords["or"] == OR
    ensures "print" in Keywords && Keywords["print"] == PRINT
    ensures "return" in Keywords && Keywords["return"] == RETURN
    ensures "super" in Keywords && Keywords["super"] == SUPER
  {
  }

  lemma LookupThisToWhile()
    ensures "this" in Keywords && Keywords["this"] == THIS
    ensures "true" in Keywords && Keywords["true"] == TRUE
    ensures "var" in Keywords && Keywords["var"] == VAR
    ensures "while" in Keywords && Keywords["while"] == WHILE
  {
  }

  /** The table holds the sixteen reserved words and nothing else. */
  lemma KeywordWords()
    ensures Keywords.Keys == {"and", "class", "else", "false", "for", "fun", "if", "nil",
                              "or", "print", "return", "super", "this", "true", "var", "while"}
  {
  }

  /** A keyword kind's spelling is in the table, mapped to that kind. */
  lemma KeywordEntry(k: TokenType)
    requires IsKeywordKind(k)
    ensures Spelling(k) in Keywords && Keywords[Spelling(k)] == k
  {
    if k in {AND, CLASS, ELSE, FALSE, FUN, FOR, IF, NIL} {
      FirstKeywordEntry(k);
    } else {
      LastKeywordEntry(k);
    }
  }

  lemma FirstKeywordEntry(k: TokenType)
    requires k in {AND, CLASS, ELSE, FALSE, FUN, FOR, IF, NIL}
    ensures Spelling(k) in Keywords && Keywords[Spelling(k)] == k
  {
    LookupAndToFalse();
    LookupForToNil();
  }

  lemma LastKeywordEntry(k: TokenType)
    requires k in {OR, PRINT, RETURN, SUPER, THIS, TRUE, VAR, WHILE}
    ensures Spelling(k) in Keywords && Keywords[Spelling(k)] == k
  {
    LookupOrToSuper();
    LookupThisToWhile();
  }

  lemma FirstKeywordWord(w: string)
    requires w in {"and", "class", "else", "false", "for", "fun", "if", "nil"}
    ensures w in Keywords && IsKeywordKind(Keywords[w]) && Spelling(Keywords[w]) == w
  {
    LookupAndToFalse();
    LookupForToNil();
  }

  lemma LastKeywordWord(w: string)
    requires w in {"or", "print", "return", "super", "this", "true", "var", "while"}
    ensures w in Keywords && IsKeywordKind(Keywords[w]) && Spelling(Keywords[w]) == w
  {
    LookupOrToSuper();
    LookupThisToWhile();
  }

  /** A word in the table is mapped to a keyword kind that it spells. */
  lemma KeywordWord(w: string)
    requires w in Keywords
    ensures IsKeywordKind(Keywords[w]) && Spelling(Keywords[w]) == w
  {
    KeywordWords();
    assert w in Keywords.Keys;
    if w in {"and", "class", "else", "false", "for", "fun", "if", "nil"} {
      FirstKeywordWord(w);
    } else {
      LastKeywordWord(w);
    }
  }

  /** No word longer than six characters is a keyword. */
  lemma LongWordNotKeyword(w: string)
    requires |w| > 6
    ensures w !in Keywords
  {
    KeywordWords();
    assert w !in Keywords.Keys;
  }

  /** Every keyword is spelled like an identifier. */
  lemma KeywordShape(k: TokenType)
    requires IsKeywordKind(k)
    ensures IsIdentifier(Spelling(k))
  {
  }

  /** Every entry of the keyword table maps a keyword kind's spelling to that kind. */
  lemma KeywordsAreSpellings()
    ensures forall w :: w in Keywords ==> IsKeywordKind(Keywords[w]) && Spelling(Keywords[w]) == w
  {
    forall w | w in Keywords ensures IsKeywordKind(Keywords[w]) && Spelling(Keywords[w]) == w {
      KeywordWord(w);
    }
  }

  /** Every keyword kind's spelling is in the keyword table, mapped to that kind:
      with KeywordsAreSpellings, the table is exactly the keyword kinds' spellings. */
  lemma SpellingsAreKeywords()
    ensures forall k :: IsKeywordKind(k) ==> Spelling(k) in Keywords && Keywords[Spelling(k)] == k
  {
    forall k | IsKeywordKind(k) ensures Spelling(k) in Keywords && Keywords[Spelling(k)] == k {
      KeywordEntry(k);
    }
  }

  // ---------------------------------------------------------------------------
  // The EOF token

  /** A lexeme never yields an EOF token. */
  lemma LexNeverEof(s: seq<char>, i: nat, line: nat)
    requires i < |s|
    ensures Lex(s, i, line).outcome.Emit? ==> Lex(s, i, line).outcome.kind != EOF
  {
    if IsAlpha(s[i]) {
      LexIdentifier(s, i, line);
      KeywordsAreSpellings();
    }
  }

  lemma {:induction false} LexFromNoEof(s: seq<char>, i: nat, line: nat)
    requires i <= |s|
    ensures forall t :: t in LexFrom(s, i, line).tokens ==> t.kind != EOF
    decreases |s| - i
  {
    if i < |s| {
      var st := Lex(s, i, line);
      LexNeverEof(s, i, line);
      LexFromNoEof(s, st.end, st.line);
    }
  }

  /** The scan always ends with exactly one EOF token: empty lexeme, no literal, and
      line 1 plus the number of newlines in the source. */
  lemma EofTokenLast(s: seq<char>)
    ensures var ts := TokensOf(s);
      && |ts| > 0
      && ts[|ts| - 1] == Token(EOF, "", NoLiteral, 1 + Newlines(s))
      && forall k :: 0 <= k < |ts| - 1 ==> ts[k].kind != EOF
  {
    LexFromCountsNewlines(s, 0, 1);
    LexFromNoEof(s, 0, 1);
    assert s[0..] == s;
    var ts := TokensOf(s);
    forall k | 0 <= k < |ts| - 1 ensures ts[k].kind != EOF {
      assert ts[k] in LexFrom(s, 0, 1).tokens;
    }
  }

  // ---------------------------------------------------------------------------
  // Token shapes

  /** The value of a number lexeme with a fraction: the digits on both sides of the
      dot, read as one integer, over 10 to the number of fraction digits. */
  lemma FractionValue(w: string, f: string)
    requires AllDigits(w) && AllDigits(f)
    ensures NumberLiteral(w + "." + f) == Num(DigitsValue(w + f), |f|)
  {
    var x := w + "." + f;
    assert forall k :: 0 <= k < |w| ==> x[k] == w[k];
    RunEndAt(x, 0, |w|, Digits);
    assert x[..|w|] + x[|w| + 1..] == w + f;
  }

  /** The lexeme of a number starting at i has the number shape. */
  lemma NumberShape(s: seq<char>, i: nat)
    requires i < |s| && IsDigit(s[i])
    ensures IsNumberLexeme(s[i..NumberEnd(s, i + 1)])
  {
    var j := NumberEnd(s, i + 1);
    var x := s[i..j];
    var d := RunEnd(s, i + 1, Digits);
    if d + 1 < |s| && s[d] == '.' && IsDigit(s[d + 1]) {
      var k := d - i;
      assert x[k] == '.';
      var whole, fraction := x[..k], x[k + 1..];
      forall m | 0 <= m < |whole| ensures IsDigit(whole[m]) {
        assert whole[m] == s[i + m];
      }
      forall m | 0 <= m < |fraction| ensures IsDigit(fraction[m]) {
        assert fraction[m] == s[d + 1 + m];
      }
    } else {
      assert AllDigits(x);
    }
  }

  lemma StringWellFormed(s: seq<char>, i: nat, line: nat)
    requires i < |s| && s[i] == '"'
    ensures forall t :: t in Emitted(s, i, StringStep(s, i, line)) ==> WellFormed(t)
  {
    var j := RunEnd(s, i + 1, ToQuote);
    if j < |s| {
      var x := s[i..j + 1];
      assert |x| == j + 1 - i && x[0] == '"' && x[|x| - 1] == '"';
      var inner, text := x[1..|x| - 1], s[i + 1..j];
      assert |inner| == |text|;
      forall k | 0 <= k < |inner| ensures inner[k] == text[k] {
        assert inner[k] == x[k + 1] == s[i + 1 + k];
      }
      assert inner == text;
      assert IsStringLexeme(x);
    }
  }

  lemma IdentifierWellFormed(s: seq<char>, i: nat, line: nat)
    requires i < |s| && IsAlpha(s[i])
    ensures forall t :: t in Emitted(s, i, IdentifierStep(s, i, line)) ==> WellFormed(t)
  {
    var st := IdentifierStep(s, i, line);
    var x := s[i..st.end];
    KeywordsAreSpellings();
    assert IsIdentifier(x);
  }

  /** Punctuation and operator tokens are spelled as their kind says. */
  lemma SymbolWellFormed(s: seq<char>, i: nat, line: nat)
    requires i < |s| && s[i] != '"' && !IsDigit(s[i]) && !IsAlpha(s[i])
    ensures forall t :: t in Emitted(s, i, Lex(s, i, line)) ==> WellFormed(t)
  {
    var st := Lex(s, i, line);
    if s[i] in "!=<>" {
      TwoCharacterOperators(s, i, line);
    } else if s[i] == '/' {
      CommentsAndSlash(s, i, line);
      assert s[i..i + 1] == "/";
    } else if st.outcome.Emit? {
      assert s[i..st.end] == [s[i]];
    }
  }

  /** Every token a lexeme yields is well formed. */
  lemma LexWellFormed(s: seq<char>, i: nat, line: nat)
    requires i < |s|
    ensures forall t :: t in Emitted(s, i, Lex(s, i, line)) ==> WellFormed(t)
  {
    if s[i] == '"' {
      LexString(s, i, line);
      StringWellFormed(s, i, line);
    } else if IsDigit(s[i]) {
      LexNumber(s, i, line);
      NumberShape(s, i);
    } else if IsAlpha(s[i]) {
      LexIdentifier(s, i, line);
      IdentifierWellFormed(s, i, line);
    } else {
      SymbolWellFormed(s, i, line);
    }
  }

  lemma {:induction false} LexFromWellFormed(s: seq<char>, i: nat, line: nat)
    requires i <= |s|
    ensures forall t :: t in LexFrom(s, i, line).tokens ==> WellFormed(t)
    decreases |s| - i
  {
    if i < |s| {
      var st := Lex(s, i, line);
      LexWellFormed(s, i, line);
      LexFromWellFormed(s, st.end, st.line);
    }
  }

  /** Every token of a scan, EOF included, is well formed. */
  lemma TokensWellFormed(s: seq<char>)
    ensures forall t :: t in TokensOf(s) ==> WellFormed(t)
  {
    LexFromWellFormed(s, 0, 1);
  }

  // ---------------------------------------------------------------------------
  // Re-scanning a lexeme

  /** An identifier-shaped text alone scans as one identifier or keyword token. */
  lemma IdentifierAlone(w: string, line: nat)
    requires IsIdentifier(w)
    ensures Lex(w, 0, line) == Step(|w|, line, Emit(if w in Keywords then Keywords[w] else IDENTIFIER, NoLiteral))
    ensures Newlines(w) == 0
  {
    LexIdentifier(w, 0, line);
    RunEndAt(w, 1, |w|, Word);
    assert w[0..|w|] == w;
    NoNewlines(w, 0, |w|);
  }

  lemma StringAlone(x: string, line: nat)
    requires IsStringLexeme(x)
    ensures Lex(x, 0, line) == Step(|x|, line + Newlines(x), Emit(STRING, Str(x[1..|x| - 1])))
  {
    LexString(x, 0, line);
    RunEndAt(x, 1, |x| - 1, ToQuote);
    StringCountsNewlines(x, 0, line);
    assert x[0..|x|] == x;
  }

  lemma NumberAlone(x: string, line: nat)
    requires IsNumberLexeme(x)
    ensures Lex(x, 0, line) == Step(|x|, line + Newlines(x), Emit(NUMBER, NumberLiteral(x)))
  {
    LexNumber(x, 0, line);
    if |x| > 0 && AllDigits(x) {
      RunEndAt(x, 1, |x|, Digits);
    } else {
      var k :| 0 < k < |x| - 1 && x[k] == '.' && AllDigits(x[..k]) && AllDigits(x[k + 1..]);
      forall m | 0 <= m < k ensures IsDigit(x[m]) {
        assert x[m] == x[..k][m];
      }
      forall m | k + 1 <= m < |x| ensures IsDigit(x[m]) {
        assert x[m] == x[k + 1..][m - k - 1];
      }
      RunEndAt(x, 1, k, Digits);
      RunEndAt(x, k + 1, |x|, Digits);
    }
    NumberCharacters(x, 0);
    NoNewlines(x, 0, |x|);
    assert x[0..|x|] == x;
  }

  /** A keyword's spelling alone scans as one token of that keyword's kind. */
  lemma KeywordAlone(k: TokenType, line: nat)
    requires IsKeywordKind(k)
    ensures Lex(Spelling(k), 0, line) == Step(|Spelling(k)|, line, Emit(k, NoLiteral))
    ensures Newlines(Spelling(k)) == 0
  {
    KeywordEntry(k);
    KeywordShape(k);
    IdentifierAlone(Spelling(k), line);
  }

  /** A punctuation spelling alone scans as one token of its kind. */
  lemma PunctuationAlone(k: TokenType, line: nat)
    requires k in {LEFT_PAREN, RIGHT_PAREN, LEFT_BRACE, RIGHT_BRACE, COMMA, DOT, MINUS, PLUS, SEMICOLON, SLASH, STAR}
    ensures Lex(Spelling(k), 0, line) == Step(|Spelling(k)|, line, Emit(k, NoLiteral))
    ensures Newlines(Spelling(k)) == 0
  {
  }

  /** A one-character operator spelling alone scans as one token of its kind. */
  lemma OperatorAlone(k: TokenType, line: nat)
    requires k in {BANG, EQUAL, GREATER, LESS}
    ensures Lex(Spelling(k), 0, line) == Step(|Spelling(k)|, line, Emit(k, NoLiteral))
    ensures Newlines(Spelling(k)) == 0
  {
  }

  /** A two-character operator spelling alone scans as one token of its kind. */
  lemma TwoCharacterOperatorAlone(k: TokenType, line: nat)
    requires k in {BANG_EQUAL, EQUAL_EQUAL, GREATER_EQUAL, LESS_EQUAL}
    ensures Lex(Spelling(k), 0, line) == Step(|Spelling(k)|, line, Emit(k, NoLiteral))
    ensures Newlines(Spelling(k)) == 0
  {
  }

  /** A well-formed token of fixed spelling (punctuation, operator or keyword),
      scanned on its own, gives back its kind. */
  lemma RescanFixed(t: Token, line: nat)
    requires WellFormed(t) && t.kind !in {IDENTIFIER, STRING, NUMBER, EOF}
    ensures |t.lexeme| > 0
    ensures Lex(t.lexeme, 0, line) == Step(|t.lexeme|, line + Newlines(t.lexeme), Emit(t.kind, t.literal))
  {
    assert t.lexeme == Spelling(t.kind) && t.literal == NoLiteral;
    if IsKeywordKind(t.kind) {
      KeywordAlone(t.kind, line);
    } else if t.kind in {BANG, EQUAL, GREATER, LESS} {
      OperatorAlone(t.kind, line);
    } else if t.kind in {BANG_EQUAL, EQUAL_EQUAL, GREATER_EQUAL, LESS_EQUAL} {
      TwoCharacterOperatorAlone(t.kind, line);
    } else {
      PunctuationAlone(t.kind, line);
    }
  }

  lemma RescanIdentifier(t: Token, line: nat)
    requires WellFormed(t) && t.kind == IDENTIFIER
    ensures |t.lexeme| > 0
    ensures Lex(t.lexeme, 0, line) == Step(|t.lexeme|, line + Newlines(t.lexeme), Emit(t.kind, t.literal))
  {
    IdentifierAlone(t.lexeme, line);
  }

  lemma RescanString(t: Token, line: nat)
    requires WellFormed(t) && t.kind == STRING
    ensures |t.lexeme| > 0
    ensures Lex(t.lexeme, 0, line) == Step(|t.lexeme|, line + Newlines(t.lexeme), Emit(t.kind, t.literal))
  {
    StringAlone(t.lexeme, line);
  }

  lemma RescanNumber(t: Token, line: nat)
    requires WellFormed(t) && t.kind == NUMBER
    ensures |t.lexeme| > 0
    ensures Lex(t.lexeme, 0, line) == Step(|t.lexeme|, line + Newlines(t.lexeme), Emit(t.kind, t.literal))
  {
    NumberAlone(t.lexeme, line);
  }

  /** A well-formed token's lexeme, scanned on its own, is one lexeme that yields the
      same kind and literal. */
  lemma RescanLexeme(t: Token, line: nat)
    requires WellFormed(t) && t.kind != EOF
    ensures |t.lexeme| > 0
    ensures Lex(t.lexeme, 0, line) == Step(|t.lexeme|, line + Newlines(t.lexeme), Emit(t.kind, t.literal))
  {
    if t.kind == IDENTIFIER {
      RescanIdentifier(t, line);
    } else if t.kind == STRING {
      RescanString(t, line);
    } else if t.kind == NUMBER {
      RescanNumber(t, line);
    } else {
      RescanFixed(t, line);
    }
  }

  /** A well-formed token's lexeme, scanned as a whole source text, gives back
      that token followed by EOF, both on the line the lexeme ends on. */
  lemma RescanAlone(t: Token)
    requires WellFormed(t) && t.kind != EOF
    ensures TokensOf(t.lexeme) == [
      Token(t.kind, t.lexeme, t.literal, 1 + Newlines(t.lexeme)),
      Token(EOF, "", NoLiteral, 1 + Newlines(t.lexeme))]
  {
    RescanLexeme(t, 1);
    var x := t.lexeme;
    var st := Lex(x, 0, 1);
    assert x[0..st.end] == x;
    assert LexFrom(x, st.end, st.line) == Scan([], [], st.line);
    assert LexFrom(x, 0, 1).tokens == [Token(t.kind, x, t.literal, st.line)];
  }

  /** Round trip: the lexeme of any token a scan produces (other than EOF), scanned
      on its own, gives back that token followed by EOF; only the line numbers are
      those of the lone lexeme. */
  lemma RescanToken(s: seq<char>, t: Token)
    requires t in TokensOf(s) && t.kind != EOF
    ensures TokensOf(t.lexeme) == [
      Token(t.kind, t.lexeme, t.literal, 1 + Newlines(t.lexeme)),
      Token(EOF, "", NoLiteral, 1 + Newlines(t.lexeme))]
  {
    TokensWellFormed(s);
    RescanAlone(t);
  }

  // ---------------------------------------------------------------------------
  // Single rules

  /** '!', '=', '<' and '>' take a following '=' into one two-character token; the
      token's kind is the one spelled by the lexeme. */
  lemma TwoCharacterOperators(s: seq<char>, i: nat, line: nat)
    requires i < |s| && s[i] in "!=<>"
    ensures var st := Lex(s, i, line);
      && st.outcome.Emit? && st.outcome.literal == NoLiteral && st.line == line
      && (st.end == i + 2 <==> NextIs(s, i, '='))
      && (st.end == i + 1 <==> !NextIs(s, i, '='))
      && Spelling(st.outcome.kind) == s[i..st.end]
  {
  }

  /** "//" starts a comment that yields nothing and stops just before the next
      newline or at the end of the text; a '/' without a second '/' is SLASH. */
  lemma CommentsAndSlash(s: seq<char>, i: nat, line: nat)
    requires i < |s| && s[i] == '/'
    ensures var st := Lex(s, i, line);
      && (NextIs(s, i, '/') ==>
            && st.outcome == Skip && st.line == line
            && (st.end == |s| || s[st.end] == '\n')
            && forall k :: i <= k < st.end ==> s[k] != '\n')
      && (!NextIs(s, i, '/') ==> st == Step(i + 1, line, Emit(SLASH, NoLiteral)))
  {
  }

  /** A string whose closing quote is at j is one STRING token whose literal is the
      text strictly between the quotes; its line is the counter after the string. */
  lemma TerminatedString(s: seq<char>, i: nat, j: nat, line: nat)
    requires i < j < |s| && s[i] == '"' && s[j] == '"'
    requires forall k :: i < k < j ==> s[k] != '"'
    ensures Lex(s, i, line) == Step(j + 1, line + Newlines(s[i..j + 1]), Emit(STRING, Str(s[i + 1..j])))
  {
    LexString(s, i, line);
    RunEndAt(s, i + 1, j, ToQuote);
    StringCountsNewlines(s, i, line);
  }

  /** A string that is never closed reports "Unterminated string." once, at the
      line counter after the rest of the text, yields no token, and ends the scan. */
  lemma UnterminatedString(s: seq<char>, i: nat, line: nat)
    requires i < |s| && s[i] == '"'
    requires forall k :: i < k < |s| ==> s[k] != '"'
    ensures var l := line + Newlines(s[i..]);
      LexFrom(s, i, line) == Scan([], [Diagnostic(l, "Unterminated string.")], l)
  {
    LexString(s, i, line);
    RunEndAt(s, i + 1, |s|, ToQuote);
    StringCountsNewlines(s, i, line);
    assert s[i..|s|] == s[i..];
  }

  /** A character no rule accepts is reported once, yields no token, and is the
      only character consumed. */
  lemma UnexpectedCharacter(s: seq<char>, i: nat, line: nat)
    requires i < |s| && !IsAlphaNumeric(s[i]) && s[i] !in "(){},.-+;*!=<>/ \r\t\n\""
    ensures Lex(s, i, line) == Step(i + 1, line, Report("Unexpected character."))
  {
  }

  /** A number is a maximal digit run, with a fraction only when '.' is followed by
      a digit; what follows the lexeme cannot extend it. */
  lemma NumberMaximalMunch(s: seq<char>, i: nat, line: nat)
    requires i < |s| && IsDigit(s[i])
    ensures var st := Lex(s, i, line); var x := s[i..st.end];
      && st == Step(st.end, line, Emit(NUMBER, NumberLiteral(x)))
      && IsNumberLexeme(x)
      && (st.end < |s| ==> !IsDigit(s[st.end]))
      && ('.' !in x && st.end < |s| && s[st.end] == '.' ==> !(st.end + 1 < |s| && IsDigit(s[st.end + 1])))
  {
    LexNumber(s, i, line);
    NumberShape(s, i);
    var d := RunEnd(s, i + 1, Digits);
    if d + 1 < |s| && s[d] == '.' && IsDigit(s[d + 1]) {
      var j := NumberEnd(s, i + 1);
      assert s[i..j][d - i] == '.';
    }
  }

  /** An identifier is a maximal run of letters, digits and underscores; it is a
      keyword exactly when the whole lexeme is in the keyword table. */
  lemma IdentifierMaximalMunch(s: seq<char>, i: nat, line: nat)
    requires i < |s| && IsAlpha(s[i])
    ensures var st := Lex(s, i, line); var x := s[i..st.end];
      && st.line == line && st.outcome.Emit? && st.outcome.literal == NoLiteral
      && IsIdentifier(x)
      && (st.end == |s| || !IsAlphaNumeric(s[st.end]))
      && (IsKeywordKind(st.outcome.kind) <==> x in Keywords)
      && (x in Keywords ==> st.outcome.kind == Keywords[x])
      && (x !in Keywords ==> st.outcome.kind == IDENTIFIER)
  {
    LexIdentifier(s, i, line);
    KeywordsAreSpellings();
  }
}
