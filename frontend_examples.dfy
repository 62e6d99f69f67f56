/** The scanner and the parser on one concrete source: `1 + 2 * 3` is scanned into
    the tokens the parser expects and parsed with the factor binding more tightly. */
module FrontendExamples {
  import opened Wrappers
  import opened Tokens
  import opened Ast
  import opened Lexer
  import opened Grammar
  import opened GrammarExamples

  const Arithmetic: string := "1 + 2 * 3"

  /** The spans `scan_tokens` cuts from `1 + 2 * 3`, all on line 1. */
  const ArithmeticTokens: seq<Located> := [
    Located(Num("1"), 0, 1), Located(Op(TokenType.Plus, "+"), 2, 3),
    Located(Num("2"), 4, 5), Located(Op(TokenType.Star, "*"), 6, 7),
    Located(Num("3"), 8, 9), Located(End, 9, 9)]

  /** A single digit not followed by a digit or a point is a NUMBER token of its own. */
  lemma DigitStep(src: string, pos: nat)
    requires pos < |src| && IsDigit(src[pos])
    requires pos + 1 == |src| || (!IsDigit(src[pos + 1]) && src[pos + 1] != '.')
    ensures ScanStep(src, pos) == Emit(TokenType.Number, Some(Literal.Number(NumberValue(src[pos..pos + 1]))), pos + 1)
  {
    StepIsNumber(src, pos);
    assert DigitsEnd(src, pos + 1) == pos + 1;
  }

  /** A scan state on line 1, with `cut` found so far and nothing reported. */
  function At(cut: seq<Located>, pos: nat): ScanState {
    ScanState(cut, [], pos, 1, true)
  }

  /** A space is skipped. */
  lemma SpaceStep(src: string, cut: seq<Located>, pos: nat)
    requires pos < |src| && src[pos] == ' '
    ensures StepFrom(src, At(cut, pos)) == At(cut, pos + 1)
  {
    NewlinesOne(src, pos);
  }

  /** A digit followed by a space or the end is cut as a number token. */
  lemma NumberCut(src: string, cut: seq<Located>, pos: nat)
    requires pos < |src| && IsDigit(src[pos])
    requires pos + 1 == |src| || src[pos + 1] == ' '
    ensures StepFrom(src, At(cut, pos)) == At(cut + [Located(Num([src[pos]]), pos, pos + 1)], pos + 1)
  {
    DigitStep(src, pos);
    NewlinesOne(src, pos);
    assert src[pos..pos + 1] == [src[pos]];
  }

  /** An operator character is cut as an operator token. */
  lemma OperatorCut(src: string, cut: seq<Located>, pos: nat, kind: TokenType)
    requires pos < |src| && SingleKind(src[pos]) == Some(kind)
    ensures StepFrom(src, At(cut, pos)) == At(cut + [Located(Op(kind, [src[pos]]), pos, pos + 1)], pos + 1)
  {
    StepIsSingle(src, pos, kind);
    NewlinesOne(src, pos);
    assert src[pos..pos + 1] == [src[pos]];
  }

  /** The scan of `1 + 2 * 3`, a step at a time: a token, then a space, four times,
      then the last digit and the end-of-input token. */
  lemma ScanArithmetic()
    ensures Lex(Arithmetic) == Complete(ArithmeticTokens, [])
  {
    assert SpellsArithmetic(Arithmetic);
    ScanSteps(Arithmetic);
  }

  /** A running scan short of the end goes on from the state one step later. */
  lemma RunOn(src: string, st: ScanState, st': ScanState)
    requires st.running && st.pos < |src| && StepFrom(src, st) == st'
    ensures Run(src, st) == Run(src, st')
  {
  }

  /** The first token, a digit followed by a space. */
  lemma FirstNumber(src: string)
    requires 1 < |src| && IsDigit(src[0]) && src[1] == ' '
    ensures Run(src, At([], 0)) == Run(src, At([Located(Num([src[0]]), 0, 1)], 1))
  {
    var first := Located(Num([src[0]]), 0, 1);
    NumberCut(src, [], 0);
    assert [] + [first] == [first];
    RunOn(src, At([], 0), At([first], 1));
  }

  /** A space, then an operator character. */
  lemma SpaceThenOperator(src: string, cut: seq<Located>, pos: nat, kind: TokenType)
    requires pos + 1 < |src| && src[pos] == ' ' && SingleKind(src[pos + 1]) == Some(kind)
    ensures Run(src, At(cut, pos)) == Run(src, At(cut + [Located(Op(kind, [src[pos + 1]]), pos + 1, pos + 2)], pos + 2))
  {
    SpaceStep(src, cut, pos);
    OperatorCut(src, cut, pos + 1, kind);
  }

  /** A space, then a digit followed by a space or the end. */
  lemma SpaceThenNumber(src: string, cut: seq<Located>, pos: nat)
    requires pos + 1 < |src| && src[pos] == ' ' && IsDigit(src[pos + 1])
    requires pos + 2 == |src| || src[pos + 2] == ' '
    ensures Run(src, At(cut, pos)) == Run(src, At(cut + [Located(Num([src[pos + 1]]), pos + 1, pos + 2)], pos + 2))
  {
    SpaceStep(src, cut, pos);
    NumberCut(src, cut, pos + 1);
  }

  /** The characters of `1 + 2 * 3`. */
  predicate SpellsArithmetic(src: string) {
    |src| == 9 && src[0] == '1' && src[1] == ' ' && src[2] == '+' && src[3] == ' ' && src[4] == '2'
    && src[5] == ' ' && src[6] == '*' && src[7] == ' ' && src[8] == '3'
  }

  /** The first three tokens of `1 + 2 * 3`. */
  const Front: seq<Located> := [Located(Num("1"), 0, 1), Located(Op(TokenType.Plus, "+"), 2, 3), Located(Num("2"), 4, 5)]

  lemma ScanSteps(src: string)
    requires SpellsArithmetic(src)
    ensures Run(src, Initial) == Complete(ArithmeticTokens, [])
  {
    ScanFront(src);
    ScanBack(src);
  }

  lemma ScanFront(src: string)
    requires SpellsArithmetic(src)
    ensures Run(src, Initial) == Run(src, At(Front, 5))
  {
    var c2 := [Located(Num("1"), 0, 1), Located(Op(TokenType.Plus, "+"), 2, 3)];
    assert c2 + [Located(Num("2"), 4, 5)] == Front;
    ScanFirstTwo(src);
    assert [src[4]] == "2";
    SpaceThenNumber(src, c2, 3);
  }

  lemma ScanFirstTwo(src: string)
    requires SpellsArithmetic(src)
    ensures Run(src, Initial) == Run(src, At([Located(Num("1"), 0, 1), Located(Op(TokenType.Plus, "+"), 2, 3)], 3))
  {
    var c1 := [Located(Num("1"), 0, 1)];
    assert c1 + [Located(Op(TokenType.Plus, "+"), 2, 3)] == [Located(Num("1"), 0, 1), Located(Op(TokenType.Plus, "+"), 2, 3)];
    assert Run(src, Initial) == Run(src, At(c1, 1)) by {
      assert [src[0]] == "1" && Initial == At([], 0);
      FirstNumber(src);
    }
    assert [src[2]] == "+" && SingleKind(src[2]) == Some(TokenType.Plus);
    SpaceThenOperator(src, c1, 1, TokenType.Plus);
  }

  lemma ScanBack(src: string)
    requires SpellsArithmetic(src)
    ensures Run(src, At(Front, 5)) == Complete(ArithmeticTokens, [])
  {
    var c4 := Front + [Located(Op(TokenType.Star, "*"), 6, 7)];
    var c5 := c4 + [Located(Num("3"), 8, 9)];
    assert c5 + [Located(EofToken(1), 9, 9)] == ArithmeticTokens;
    assert Run(src, At(Front, 5)) == Run(src, At(c4, 7)) by {
      assert [src[6]] == "*" && SingleKind(src[6]) == Some(TokenType.Star);
      SpaceThenOperator(src, Front, 5, TokenType.Star);
    }
    assert [src[8]] == "3";
    SpaceThenNumber(src, c4, 7);
  }

  /** Scanning `1 + 2 * 3` and parsing the tokens gives `1 + (2 * 3)`, reads every
      token but the end-of-input one, and logs nothing. */
  lemma ScanThenParse()
    ensures Lex(Arithmetic).Complete? && Lex(Arithmetic).reports == []
    ensures var ts := TokensOf(Lex(Arithmetic).located);
      EndsWithEof(ts)
      && Parse(ts) == Outcome(Ok(Binary(Lit("1"), BinaryOp.Plus, Binary(Lit("2"), BinaryOp.Star, Lit("3")))), 5, [])
  {
    ScanArithmetic();
    ArithmeticTokensOf();
    FactorBindsTighter();
  }

  lemma ArithmeticTokensOf()
    ensures TokensOf(ArithmeticTokens) == [Num("1"), Op(TokenType.Plus, "+"), Num("2"), Op(TokenType.Star, "*"), Num("3"), End]
  {
  }
}
