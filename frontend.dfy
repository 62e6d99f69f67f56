/** The scanner and the parser put together: what `Lox::run` hands the parser is a list
    the parser's preconditions accept, and on it every failed parse is diagnosed. */
module Frontend {
  import opened Wrappers
  import opened Tokens
  import opened Lexer
  import opened LexerFacts
  import opened LexerRules
  import opened Grammar
  import opened GrammarFacts

  /** One step of the scanner emits a STRING token only with a string payload and a
      NUMBER token only with a number payload. */
  lemma StepPayload(src: string, pos: nat)
    requires pos < |src| && ScanStep(src, pos).Emit?
    ensures !Mismatched(Token(ScanStep(src, pos).kind, "", ScanStep(src, pos).literal, 0))
  {
    var c := src[pos];
    if c == '"' {
      StringToken(src, pos);
    } else if IsDigit(c) {
      NumberToken(src, pos);
    } else if IsAlpha(c) {
      WordToken(src, pos);
    }
  }

  /** A complete scan ends with the end-of-input token, and each of its STRING and
      NUMBER tokens carries the payload its kind calls for. */
  lemma LexFeedsParser(src: string)
    requires Lex(src).Complete?
    ensures var ts := TokensOf(Lex(src).located);
      EndsWithEof(ts) && forall i :: 0 <= i < |ts| ==> !Mismatched(ts[i])
  {
    LexScanned(src);
    TokenList(src);
    var items := Lex(src).located;
    var ts := TokensOf(items);
    forall i | 0 <= i < |ts|
      ensures !Mismatched(ts[i])
    {
      if i < |ts| - 1 {
        assert Cut(src, items[i]);
        StepPayload(src, items[i].start);
      }
    }
  }

  /** Parsing what a complete scan produced: a success is a tree the parser can build,
      and a failure logs exactly one diagnostic, naming the token where parsing
      stopped. */
  lemma ParseScanned(src: string)
    requires Lex(src).Complete?
    ensures var ts := TokensOf(Lex(src).located);
      EndsWithEof(ts)
      && var o := Parse(ts);
      (o.result.Ok? ==> o.logged == [] && Canonical(o.result.value))
      && (o.result.Err? ==>
            o.logged == [ParseErrorReport(ts[o.next], ExpectExpression)]
            || o.logged == [ParseErrorReport(ts[o.next], ExpectRightParen)])
  {
    LexFeedsParser(src);
    var ts := TokensOf(Lex(src).located);
    ParseBehaved(ts);
  }
}
