/** Whole scans of small, concrete source texts, worked lexeme by lexeme. */
module ScanExamples {
  import opened Tokens
  import opened Lexical
  import LexicalProperties

  /** "!=" is one two-character token, not BANG then EQUAL. */
  lemma BangEqual()
    ensures TokensOf("!=") == [Token(BANG_EQUAL, "!=", NoLiteral, 1), Token(EOF, "", NoLiteral, 1)]
  {
    LexicalProperties.RescanAlone(Token(BANG_EQUAL, "!=", NoLiteral, 1));
    LexicalProperties.NoNewlines("!=", 0, 2);
    assert "!="[0..2] == "!=";
  }

  /** A comment yields nothing; the newline after it moves the line on. */
  lemma CommentThenNumber()
    ensures TokensOf("1//c\n2") == [
      Token(NUMBER, "1", Num(1, 0), 1),
      Token(NUMBER, "2", Num(2, 0), 2),
      Token(EOF, "", NoLiteral, 2)]
  {
    var s := "1//c\n2";
    CommentThenNumberLexemes();
    assert s[0..1] == "1" && s[5..6] == "2";
    assert LexFrom(s, 5, 2).tokens == [Token(NUMBER, "2", Num(2, 0), 2)];
    assert LexFrom(s, 1, 1).tokens == [Token(NUMBER, "2", Num(2, 0), 2)];
  }

  /** The four lexemes of "1//c\n2": a number, a comment, a newline, a number. */
  lemma CommentThenNumberLexemes()
    ensures Lex("1//c\n2", 0, 1) == Step(1, 1, Emit(NUMBER, Num(1, 0)))
    ensures Lex("1//c\n2", 1, 1) == Step(4, 1, Skip)
    ensures Lex("1//c\n2", 4, 1) == Step(5, 2, Skip)
    ensures Lex("1//c\n2", 5, 2) == Step(6, 2, Emit(NUMBER, Num(2, 0)))
  {
    var s := "1//c\n2";
    LexicalProperties.RunEndAt(s, 1, 1, Digits);
    LexicalProperties.RunEndAt(s, 3, 4, ToLineEnd);
    LexicalProperties.RunEndAt(s, 6, 6, Digits);
    assert s[0..1] == "1" && s[5..6] == "2";
  }

  /** Maximal munch: "classroom" is an identifier although it starts with "class". */
  lemma KeywordPrefix()
    ensures TokensOf("classroom") == [Token(IDENTIFIER, "classroom", NoLiteral, 1), Token(EOF, "", NoLiteral, 1)]
  {
    var s := "classroom";
    LexicalProperties.RunEndAt(s, 1, 9, Word);
    LexicalProperties.LongWordNotKeyword(s);
    assert s[0..9] == s;
    assert Lex(s, 0, 1) == Step(9, 1, Emit(IDENTIFIER, NoLiteral));
  }

  /** A fraction needs a digit after the dot: "3." is NUMBER then DOT. */
  lemma TrailingDot()
    ensures TokensOf("3.") == [Token(NUMBER, "3", Num(3, 0), 1), Token(DOT, ".", NoLiteral, 1), Token(EOF, "", NoLiteral, 1)]
  {
    var s := "3.";
    TrailingDotLexemes();
    assert s[0..1] == "3" && s[1..2] == ".";
  }

  lemma TrailingDotLexemes()
    ensures Lex("3.", 0, 1) == Step(1, 1, Emit(NUMBER, Num(3, 0)))
    ensures Lex("3.", 1, 1) == Step(2, 1, Emit(DOT, NoLiteral))
  {
    var s := "3.";
    LexicalProperties.RunEndAt(s, 1, 1, Digits);
    assert s[0..1] == "3";
  }

  /** "3.14" is one number, kept exactly as 314 / 10^2. */
  lemma Fraction()
    ensures TokensOf("3.14") == [Token(NUMBER, "3.14", Num(314, 2), 1), Token(EOF, "", NoLiteral, 1)]
  {
    FractionLexeme();
    assert "3.14"[0..4] == "3.14";
  }

  lemma FractionLexeme()
    ensures Lex("3.14", 0, 1) == Step(4, 1, Emit(NUMBER, Num(314, 2)))
  {
    var s := "3.14";
    LexicalProperties.RunEndAt(s, 1, 1, Digits);
    LexicalProperties.RunEndAt(s, 2, 4, Digits);
    assert s == "3" + "." + "14" && s[0..4] == s;
    LexicalProperties.LexNumber(s, 0, 1);
    LexicalProperties.NumberEndAt(s, 1, 1, 4);
    assert AllDigits("3") && AllDigits("14");
    LexicalProperties.FractionValue("3", "14");
    assert "3" + "14" == "314";
    assert DigitsValue("314") == 314 by {
      assert "314"[..2] == "31" && "31"[..1] == "3" && "3"[..0] == "";
    }
    assert NumberLiteral(s) == Num(314, 2);
  }

  /** An unterminated string is reported at the line reached at the end of the text. */
  lemma Unterminated()
    ensures TokensOf("\"a\nb") == [Token(EOF, "", NoLiteral, 2)]
    ensures ErrorsOf("\"a\nb") == [Diagnostic(2, "Unterminated string.")]
  {
    UnterminatedScan();
  }

  lemma UnterminatedScan()
    ensures LexFrom("\"a\nb", 0, 1) == Scan([], [Diagnostic(2, "Unterminated string.")], 2)
  {
    var s := "\"a\nb";
    assert forall k :: 0 < k < |s| ==> s[k] != '"';
    LexicalProperties.UnterminatedString(s, 0, 1);
    assert Newlines(s[0..]) == 1 by {
      assert s[0..] == "\"a" + "\n" + "b";
    }
  }

  /** A character no rule accepts is reported and skipped. */
  lemma Unexpected()
    ensures ErrorsOf("@") == [Diagnostic(1, "Unexpected character.")]
    ensures TokensOf("@") == [Token(EOF, "", NoLiteral, 1)]
  {
    LexicalProperties.UnexpectedCharacter("@", 0, 1);
  }
}
