/** Whole scans of small sources, worked out from the rules of module Lexer. */
module LexerExamples {
  import opened Wrappers
  import opened Tokens
  import opened Lexer
  import opened LexerFacts
  import opened LexerGaps

  /** `123.` is the number 123 followed by a DOT: a fraction needs a digit after the
      point. */
  lemma NumberThenDot()
    ensures Lex("123.") == Complete([
      Located(Token(TokenType.Number, "123", Some(Literal.Number(NumberValue("123"))), 1), 0, 3),
      Located(Token(Dot, ".", None, 1), 3, 4),
      Located(EofToken(1), 4, 4)], [])
  {
    var src := "123.";
    var s1 := ScanState([Located(Token(TokenType.Number, "123", Some(Literal.Number(NumberValue("123"))), 1), 0, 3)], [], 3, 1, true);
    var s2 := ScanState(s1.located + [Located(Token(Dot, ".", None, 1), 3, 4)], [], 4, 1, true);
    NumberFirst();
    DotSecond();
    assert Run(src, Initial) == Run(src, s1);
    assert Run(src, s1) == Run(src, s2);
  }

  lemma NumberFirst()
    ensures StepFrom("123.", Initial)
      == ScanState([Located(Token(TokenType.Number, "123", Some(Literal.Number(NumberValue("123"))), 1), 0, 3)], [], 3, 1, true)
  {
    var src := "123.";
    assert DigitsEnd(src, 3) == 3;
    assert DigitsEnd(src, 1) == 3;
    assert NumberEnd(src, 0) == 3;
    assert src[0..3] == "123";
    StepIsNumber(src, 0);
    NumberOnOneLine(src, 0);
  }

  lemma DotSecond()
    ensures var s1 := ScanState([Located(Token(TokenType.Number, "123", Some(Literal.Number(NumberValue("123"))), 1), 0, 3)], [], 3, 1, true);
      StepFrom("123.", s1) == ScanState(s1.located + [Located(Token(Dot, ".", None, 1), 3, 4)], [], 4, 1, true)
  {
    var src := "123.";
    assert src[3..4] == ".";
    StepIsSingle(src, 3, Dot);
    NewlinesOne(src, 3);
  }

  /** An underscore starts a word but does not continue one: `a_b` is the identifier
      `a` followed by the identifier `_b`. */
  lemma UnderscoreSplitsWords()
    ensures Lex("a_b") == Complete([
      Located(Token(Identifier, "a", None, 1), 0, 1),
      Located(Token(Identifier, "_b", None, 1), 1, 3),
      Located(EofToken(1), 3, 3)], [])
  {
    var src := "a_b";
    var s1 := ScanState([Located(Token(Identifier, "a", None, 1), 0, 1)], [], 1, 1, true);
    var s2 := ScanState(s1.located + [Located(Token(Identifier, "_b", None, 1), 1, 3)], [], 3, 1, true);
    WordA();
    WordB();
    assert Run(src, Initial) == Run(src, s1);
    assert Run(src, s1) == Run(src, s2);
  }

  lemma WordA()
    ensures StepFrom("a_b", Initial) == ScanState([Located(Token(Identifier, "a", None, 1), 0, 1)], [], 1, 1, true)
  {
    var src := "a_b";
    assert WordEnd(src, 1) == 1;
    assert src[0..1] == "a";
    NotKeywords();
    StepIsWord(src, 0);
    NewlinesOne(src, 0);
  }

  lemma WordB()
    ensures var s1 := ScanState([Located(Token(Identifier, "a", None, 1), 0, 1)], [], 1, 1, true);
      StepFrom("a_b", s1) == ScanState(s1.located + [Located(Token(Identifier, "_b", None, 1), 1, 3)], [], 3, 1, true)
  {
    var src := "a_b";
    assert WordEnd(src, 3) == 3;
    assert WordEnd(src, 2) == 3;
    assert src[1..3] == "_b";
    NotKeywords();
    StepIsWord(src, 1);
    NoNewlines(src, 1, 3);
  }

  lemma NotKeywords()
    ensures "a" !in Keywords && "_b" !in Keywords
  {
    TableOfPairs(KeywordPairs);
    assert forall i :: 0 <= i < |KeywordPairs| ==> KeywordPairs[i].0 != "a" && KeywordPairs[i].0 != "_b";
  }

  /** A string left open stops the scan: only the diagnostic remains, on the line
      where the source ends. */
  lemma OpenStringAborts()
    ensures Lex("\"a\n") == Aborted([LexError(2, "Unterminated string.")])
  {
    var src := "\"a\n";
    assert FindFrom(src, 3, '"') == 3;
    assert FindFrom(src, 1, '"') == 3;
    assert Newlines(src, 0, 3) == 1;
    var s1 := StepFrom(src, Initial);
    assert s1 == ScanState([], [LexError(2, "Unterminated string.")], 3, 2, false);
  }

  /** A string may span lines: its token carries the line where it ends, and the
      payload keeps the line break. */
  lemma MultiLineString()
    ensures Lex("\"a\nb\"") == Complete([
      Located(Token(TokenType.String, "\"a\nb\"", Some(Str("a\nb")), 2), 0, 5),
      Located(EofToken(2), 5, 5)], [])
  {
    var src := "\"a\nb\"";
    StringAcrossLines();
    var s1 := ScanState([Located(Token(TokenType.String, src, Some(Str("a\nb")), 2), 0, 5)], [], 5, 2, true);
    assert Run(src, Initial) == Run(src, s1);
  }

  lemma StringAcrossLines()
    ensures var src := "\"a\nb\"";
      StepFrom(src, Initial) == ScanState([Located(Token(TokenType.String, src, Some(Str("a\nb")), 2), 0, 5)], [], 5, 2, true)
  {
    var src := "\"a\nb\"";
    assert FindFrom(src, 4, '"') == 4;
    assert FindFrom(src, 1, '"') == 4;
    assert Newlines(src, 0, 5) == 1;
    assert src[0..5] == src && src[1..4] == "a\nb";
    StepIsString(src, 0);
  }

  /** A comment is skipped up to its line break, which still counts; `!=` is one
      token. */
  lemma CommentThenOperator()
    ensures Lex("//c\n!=") == Complete([
      Located(Token(BangEqual, "!=", None, 2), 4, 6),
      Located(EofToken(2), 6, 6)], [])
  {
    CommentSkipped();
    OperatorThenEnd();
  }

  lemma CommentSkipped()
    ensures Run("//c\n!=", Initial) == Run("//c\n!=", ScanState([], [], 4, 2, true))
  {
    CommentThenBreak();
  }

  lemma OperatorThenEnd()
    ensures Run("//c\n!=", ScanState([], [], 4, 2, true))
      == Complete([Located(Token(BangEqual, "!=", None, 2), 4, 6), Located(EofToken(2), 6, 6)], [])
  {
    OperatorAfterBreak();
  }

  lemma CommentThenBreak()
    ensures StepFrom("//c\n!=", Initial) == ScanState([], [], 3, 1, true)
    ensures StepFrom("//c\n!=", ScanState([], [], 3, 1, true)) == ScanState([], [], 4, 2, true)
  {
    var src := "//c\n!=";
    assert FindFrom(src, 3, '\n') == 3;
    assert FindFrom(src, 2, '\n') == 3;
    NoNewlines(src, 0, 3);
    StepIsSlash(src, 0);
    NewlinesOne(src, 3);
  }

  lemma OperatorAfterBreak()
    ensures StepFrom("//c\n!=", ScanState([], [], 4, 2, true)) == ScanState([Located(Token(BangEqual, "!=", None, 2), 4, 6)], [], 6, 2, true)
  {
    var src := "//c\n!=";
    assert src[4..6] == "!=";
    NoNewlines(src, 4, 6);
    StepIsOperator(src, 4, Bang, BangEqual);
  }

  /** A character no rule takes is reported and skipped; scanning goes on. */
  lemma UnexpectedIsSkipped()
    ensures Lex("@") == Complete([Located(EofToken(1), 1, 1)], [LexError(1, "Unexpected character.")])
  {
    var s1 := StepFrom("@", Initial);
    assert s1 == ScanState([], [LexError(1, "Unexpected character.")], 1, 1, true);
  }

  /** A list that leaves out a token is not a tokenization: in `1 2`, a list that
      starts with the `2` leaves a gap in front of it in which the `1` is emitted. */
  lemma DroppedTokenRejected()
    ensures !Tokenized("1 2", [
      Located(Token(TokenType.Number, "2", Some(Literal.Number(NumberValue("2"))), 1), 2, 3),
      Located(EofToken(1), 3, 3)])
  {
    var src := "1 2";
    var items := [
      Located(Token(TokenType.Number, "2", Some(Literal.Number(NumberValue("2"))), 1), 2, 3),
      Located(EofToken(1), 3, 3)];
    StepIsNumber(src, 0);
    assert !GapBefore(src, items, 0);
  }
}
